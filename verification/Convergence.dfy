/** A reconcile repairs any index content: whatever outsiders did to the index, one repair followed by a
    drain leaves nothing for the next reconcile to find. */
module ReconcileConvergence {
  import opened Schema
  import opened Relay
  import opened Tables
  import opened Protocol
  import opened TableInvariant
  import opened IndexInvariant
  import opened Reconcile
  import Runs

  /** Documents to be made visible in place must already carry the active version. */
  predicate RepairSafe(pg: Pg, c: Drift, id: Id, d: Option<Doc>) {
    id in c.avail && d.Some? && ActiveChunk(pg, id) ==> VersionMatches(pg, d.value)
  }

  /** What _classify accepts for one id; summaries without text cannot be rebuilt. */
  predicate Settled(pg: Pg, id: Id, d: Option<Doc>) {
    if ActiveId(pg, id) then d.Some? && d.value.visible && (ActiveChunk(pg, id) ==> VersionMatches(pg, d.value))
    else d.Some? ==> !(Labelled(pg, d.value) && d.value.visible)
  }

  predicate Lost(pg: Pg, c: Drift, id: Id) {
    id in c.missSummaries && id in pg.summaries && pg.summaries[id].text == ""
  }

  ghost function SafeIn(pg: Pg, c: Drift): (Id, Option<Doc>) -> bool {
    (id, d) => RepairSafe(pg, c, id, d)
  }

  ghost function SettledIn(pg: Pg, c: Drift): (Id, Option<Doc>) -> bool {
    (id, d) => Settled(pg, id, d) || Lost(pg, c, id)
  }

  /** _classify finds nothing exactly when every id is settled. */
  lemma CleanIffSettled(pg: Pg, es: Index)
    ensures Classifies(pg, es, Clean) <==> forall id :: Settled(pg, id, At(es, id))
  {
    if Classifies(pg, es, Clean) {
      forall id ensures Settled(pg, id, At(es, id)) {
        assert id !in MissChunks(pg, es) && id !in DriftChunks(pg, es) && id !in MissSummaries(pg, es);
        assert id !in AvailDrift(pg, es) && id !in RetiredLeaks(pg, es) && id !in Orphans(pg, es);
      }
    }
    if forall id :: Settled(pg, id, At(es, id)) {
      forall id
        ensures id !in MissChunks(pg, es) && id !in DriftChunks(pg, es) && id !in MissSummaries(pg, es)
        ensures id !in AvailDrift(pg, es) && id !in RetiredLeaks(pg, es) && id !in Orphans(pg, es)
      {
        assert Settled(pg, id, At(es, id));
      }
    }
  }

  /** Every active row has its document, visible and, for a chunk, stamped with the row's version; and no other
      document with the file's label is visible. */
  ghost predicate InOrder(pg: Pg, es: Index) {
    && (forall id | id in pg.chunks && pg.chunks[id].version == pg.active.chunk ::
          && id in es && es[id].visible
          && es[id].kind.ChunkDoc? && es[id].kind.version == pg.chunks[id].version)
    && (forall id | id in pg.summaries && pg.summaries[id].version == pg.active.summary :: id in es && es[id].visible)
    && (forall id | id in es && es[id].visible && es[id].file == pg.file && es[id].tenant == pg.tenant ::
          || (id in pg.chunks && pg.chunks[id].version == pg.active.chunk)
          || (id in pg.summaries && pg.summaries[id].version == pg.active.summary))
  }

  /** What it means that _classify finds nothing, in terms of rows and document fields. */
  lemma CleanMeans(pg: Pg, es: Index)
    ensures Classifies(pg, es, Clean) <==> InOrder(pg, es)
  {
    ClassifiesIffReported(pg, es, Clean);
    hide Classifies;
    if Reported(pg, es, Clean) {
      forall id
        ensures id !in Clean.missChunks && id !in Clean.driftChunks && id !in Clean.missSummaries
        ensures id !in Clean.avail && id !in Clean.retired && id !in Clean.orphans
      {
      }
    }
  }

  lemma RepublishSound(pg: Pg, es: Index, c: Drift, i: nat)
    requires ChunksOk(pg) && SummariesOk(pg) && Classifies(pg, es, c) && i < |Republish(pg, c)|
    ensures Sound(SafeIn(pg, c), SettledIn(pg, c), Republish(pg, c)[i]) && Republish(pg, c)[i].IndexDoc?
  {
    RepublishKind(pg, es, c, i);
    hide Republish, Classifies;
    RebuildSound(pg, c, Republish(pg, c)[i]);
  }

  lemma RebuildSound(pg: Pg, c: Drift, e: Event)
    requires ChunksOk(pg) && SummariesOk(pg) && IsRebuild(pg, e)
    ensures Sound(SafeIn(pg, c), SettledIn(pg, c), e)
  {
    IdKinds(pg);
    hide ChunksOk, SummariesOk;
  }

  lemma SetsSound(pg: Pg, es: Index, c: Drift)
    requires ChunksOk(pg) && SummariesOk(pg) && Classifies(pg, es, c)
    ensures Sound(SafeIn(pg, c), SettledIn(pg, c), SetAvailable(c.avail, true))
    ensures Sound(SafeIn(pg, c), SettledIn(pg, c), SetAvailable(c.retired, false))
    ensures Sound(SafeIn(pg, c), SettledIn(pg, c), Delete(c.orphans))
  {
  }

  lemma MentionedConcat(a: seq<Event>, b: seq<Event>, id: Id)
    ensures MentionedIn(a, id) || MentionedIn(b, id) ==> MentionedIn(a + b, id)
  {
    if MentionedIn(a, id) {
      var i :| 0 <= i < |a| && Mentions(a[i], id);
      assert Mentions((a + b)[i], id);
    } else if MentionedIn(b, id) {
      var i :| 0 <= i < |b| && Mentions(b[i], id);
      assert Mentions((a + b)[|a| + i], id);
    }
  }

  lemma RepublishCovers(pg: Pg, c: Drift, id: Id)
    requires Repairable(pg, c) && (id in c.missChunks || id in c.driftChunks || (id in c.missSummaries && pg.summaries[id].text != ""))
    ensures MentionedIn(Republish(pg, c), id)
  {
    if id in c.missChunks || id in c.driftChunks {
      RebuildCovers(pg, c, id);
    } else {
      var rebuild, sums := c.missChunks + c.driftChunks, NonEmpty(pg, c.missSummaries);
      var i :| 0 <= i < |sums| && sums[i] == id;
      assert Mentions(Republish(pg, c)[|rebuild| + i], id);
    }
  }

  lemma RebuildCovers(pg: Pg, c: Drift, id: Id)
    requires Repairable(pg, c) && (id in c.missChunks || id in c.driftChunks)
    ensures MentionedIn(Republish(pg, c), id)
  {
    var rebuild := c.missChunks + c.driftChunks;
    assert id in rebuild;
    var i :| 0 <= i < |rebuild| && rebuild[i] == id;
    assert Mentions(Republish(pg, c)[i], id);
  }

  /** Whatever is not settled is mentioned by a repair event. */
  lemma RepairCovers(pg: Pg, es: Index, c: Drift, id: Id)
    requires Classifies(pg, es, c) && !Settled(pg, id, At(es, id)) && !Lost(pg, c, id)
    ensures MentionedIn(RepairEvents(pg, c), id)
  {
    var r := Republish(pg, c);
    var a := if c.avail != [] then [SetAvailable(c.avail, true)] else [];
    var b := if c.retired != [] then [SetAvailable(c.retired, false)] else [];
    var d := if c.orphans != [] then [Delete(c.orphans)] else [];
    if id in c.missChunks || id in c.driftChunks || id in c.missSummaries {
      RepublishCovers(pg, c, id);
    } else if id in c.avail {
      assert Mentions(a[0], id);
    } else if id in c.retired {
      assert Mentions(b[0], id);
    } else {
      assert id in Orphans(pg, es) by { Unsettled(pg, es, id); }
      assert Mentions(d[0], id);
    }
    MentionedConcat(r, a, id);
    MentionedConcat(r + a, b, id);
    MentionedConcat(r + a + b, d, id);
  }

  lemma Unsettled(pg: Pg, es: Index, id: Id)
    requires !Settled(pg, id, At(es, id))
    ensures id in MissChunks(pg, es) || id in DriftChunks(pg, es) || id in MissSummaries(pg, es)
         || id in AvailDrift(pg, es) || id in RetiredLeaks(pg, es) || id in Orphans(pg, es)
  {
  }

  lemma RepairEventSound(pg: Pg, es: Index, c: Drift, i: nat)
    requires ChunksOk(pg) && SummariesOk(pg) && Classifies(pg, es, c) && i < |RepairEvents(pg, c)|
    ensures Sound(SafeIn(pg, c), SettledIn(pg, c), RepairEvents(pg, c)[i])
    ensures var e := RepairEvents(pg, c)[i];
      e.IndexDoc? || e == SetAvailable(c.avail, true) || e == SetAvailable(c.retired, false) || e == Delete(c.orphans)
  {
    SetsSound(pg, es, c);
    if i < |Republish(pg, c)| {
      RepublishSound(pg, es, c, i);
    }
  }

  /** After the repair transaction the outbox converges to a settled index and cannot wedge. */
  lemma RepairConverges(w: World, c: Drift)
    requires ChunksOk(w.pg) && SummariesOk(w.pg) && Quiet(w) && (forall k :: k in w.outbox ==> k < w.next)
    requires Classifies(w.pg, w.es, c)
    ensures var outbox := Enqueue(w.outbox, w.next, w.clock, RepairEvents(w.pg, c));
      Converging(SafeIn(w.pg, c), SettledIn(w.pg, c), w.es, outbox) && Unwedged(w.es, outbox)
  {
    var events := RepairEvents(w.pg, c);
    RepairEventsSound(w.pg, w.es, c);
    RepairDocs(w.pg, w.es, c);
    assert forall k: nat :: !Open(w.outbox, k);
    hide RepairEvents, Enqueue, Classifies, ChunksOk, SummariesOk, MentionedIn, Sound, DeletedBy, DeletePending;
    assert Unwedged(w.es, w.outbox);
    EnqueueUnwedged(w.es, w.outbox, w.next, w.clock, events);
    hide Unwedged;
    EnqueueConverges(SafeIn(w.pg, c), SettledIn(w.pg, c), w.es, w.outbox, w.next, w.clock, events);
  }

  lemma RepairDocs(pg: Pg, es: Index, c: Drift)
    requires ChunksOk(pg) && SummariesOk(pg) && Classifies(pg, es, c)
    ensures forall id :: SafeIn(pg, c)(id, At(es, id))
    ensures forall id :: SettledIn(pg, c)(id, At(es, id)) || MentionedIn(RepairEvents(pg, c), id)
  {
    forall id ensures RepairSafe(pg, c, id, At(es, id)) {
      assert id in c.avail ==> id in AvailDrift(pg, es);
    }
    hide RepairEvents, Classifies, Settled, Lost, MentionedIn;
    forall id ensures SettledIn(pg, c)(id, At(es, id)) || MentionedIn(RepairEvents(pg, c), id) {
      if !Settled(pg, id, At(es, id)) && !Lost(pg, c, id) {
        RepairCovers(pg, es, c, id);
      }
    }
  }

  lemma RepairEventsSound(pg: Pg, es: Index, c: Drift)
    requires ChunksOk(pg) && SummariesOk(pg) && Classifies(pg, es, c)
    ensures forall i | 0 <= i < |RepairEvents(pg, c)| :: Sound(SafeIn(pg, c), SettledIn(pg, c), RepairEvents(pg, c)[i])
    ensures forall i | 0 <= i < |RepairEvents(pg, c)| :: !RepairEvents(pg, c)[i].Unknown?
    ensures forall i, id | 0 <= i < |RepairEvents(pg, c)| && RepairEvents(pg, c)[i].SetAvailable? && id in RepairEvents(pg, c)[i].ids ::
      id in es && !DeletedBy(RepairEvents(pg, c), id)
  {
    var events := RepairEvents(pg, c);
    assert forall id :: id in c.orphans ==> !Live(pg, id);
    assert forall id :: id in c.avail || id in c.retired ==> id in es && Live(pg, id);
    hide RepairEvents, Classifies, Sound, Live;
    forall i | 0 <= i < |events|
      ensures Sound(SafeIn(pg, c), SettledIn(pg, c), events[i]) && !events[i].Unknown?
      ensures forall id | events[i].SetAvailable? && id in events[i].ids :: id in es && Live(pg, id)
      ensures forall id | events[i].Delete? && id in events[i].ids :: !Live(pg, id)
    {
      RepairEventSound(pg, es, c, i);
    }
  }

  /** A repair emits at most one deletion, of documents that were there when it looked. */
  lemma RepairRemovable(w: World, c: Drift)
    requires Quiet(w) && (forall k :: k in w.outbox ==> k < w.next) && Classifies(w.pg, w.es, c)
    ensures Removable(w.es, Enqueue(w.outbox, w.next, w.clock, RepairEvents(w.pg, c)))
  {
    var events := RepairEvents(w.pg, c);
    DeletionLast(w.pg, c);
    assert Deletable(w.es, c.orphans);
    assert forall k: nat :: !Open(w.outbox, k);
    hide RepairEvents, Enqueue, Classifies, Removable, Deletable;
    OneDeletion(w.es, w.outbox, w.next, w.clock, events, c.orphans);
  }

  lemma OneDeletion(es: Index, outbox: Outbox, next: nat, now: nat, events: seq<Event>, ids: seq<Id>)
    requires (forall k :: k in outbox ==> k < next) && (forall k: nat :: !Open(outbox, k)) && Deletable(es, ids)
    requires forall i | 0 <= i < |events| && events[i].Delete? :: i == |events| - 1 && events[i].ids == ids
    ensures Removable(es, Enqueue(outbox, next, now, events))
  {
    var outbox' := Enqueue(outbox, next, now, events);
    EnqueueOpen(outbox, next, now, events);
    hide Enqueue, Deletable;
    forall k: nat | Open(outbox', k) && outbox'[k].event.Delete? ensures k == next + |events| - 1 && outbox'[k].event.ids == ids {
      assert outbox'[k].event == events[k - next];
    }
  }

  lemma DeletionLast(pg: Pg, c: Drift)
    requires Repairable(pg, c)
    ensures var events := RepairEvents(pg, c);
      forall i | 0 <= i < |events| && events[i].Delete? :: i == |events| - 1 && events[i].ids == c.orphans
  {
    assert forall i | 0 <= i < |Republish(pg, c)| :: Republish(pg, c)[i].IndexDoc?;
    hide Republish;
  }

  /** A drain of everything open against an index that answers. */
  ghost predicate DrainsAll(outbox: Outbox, rows: seq<nat>, calls: seq<nat>) {
    && Lists(rows, Unpublished(outbox)) && |calls| == |rows|
    && forall j | 0 <= j < |rows| && rows[j] in outbox :: calls[j] >= Size(outbox[rows[j]].event)
  }

  lemma RepairDrained(w: World, c: Drift, outbox: Outbox, rows: seq<nat>, calls: seq<nat>)
    requires TablesOk(w) && Classifies(w.pg, w.es, c) && Quiet(w) && DrainsAll(outbox, rows, calls)
    requires outbox == Enqueue(w.outbox, w.next, w.clock, RepairEvents(w.pg, c))
    ensures forall k :: k in rows ==> k in outbox
    ensures var r := Drain(w.es, outbox, rows, calls, MAX_ATTEMPTS);
      && Unpublished(r.outbox) == {}
      && forall id :: Settled(w.pg, id, At(r.es, id)) || Lost(w.pg, c, id)
  {
    RepairReady(w, c, outbox);
    hide RepairEvents, Enqueue, Removable, Unwedged, Converging, TablesOk, Settled, Lost, Quiet, Classifies, DrainsAll;
    DrainSettles(w.pg, c, w.es, outbox, rows, calls);
  }

  lemma RepairReady(w: World, c: Drift, outbox: Outbox)
    requires TablesOk(w) && Classifies(w.pg, w.es, c) && Quiet(w)
    requires outbox == Enqueue(w.outbox, w.next, w.clock, RepairEvents(w.pg, c))
    ensures Converging(SafeIn(w.pg, c), SettledIn(w.pg, c), w.es, outbox) && Unwedged(w.es, outbox) && Removable(w.es, outbox)
  {
    assert forall k :: k in w.outbox ==> k < w.next;
    hide RepairEvents, Enqueue, Removable, Unwedged, Converging, Quiet, Classifies, AnchorsOk, PointersOk, InflightOk, ReadingsOk, ChunksOk, SummariesOk;
    RepairConverges(w, c);
    RepairRemovable(w, c);
  }

  lemma DrainSettles(pg: Pg, c: Drift, es: Index, outbox: Outbox, rows: seq<nat>, calls: seq<nat>)
    requires Converging(SafeIn(pg, c), SettledIn(pg, c), es, outbox) && Unwedged(es, outbox) && Removable(es, outbox)
    requires DrainsAll(outbox, rows, calls)
    ensures forall k :: k in rows ==> k in outbox
    ensures var r := Drain(es, outbox, rows, calls, MAX_ATTEMPTS);
      && Unpublished(r.outbox) == {}
      && forall id :: Settled(pg, id, At(r.es, id)) || Lost(pg, c, id)
  {
    hide Removable, Unwedged, Drain, Settled, Lost;
    Runs.DrainEmpties(es, outbox, rows, calls);
    DrainConverges(SafeIn(pg, c), SettledIn(pg, c), es, outbox, rows, calls, MAX_ATTEMPTS);
    var r := Drain(es, outbox, rows, calls, MAX_ATTEMPTS);
    Runs.NothingUnpublished(r.outbox);
    forall id ensures Settled(pg, id, At(r.es, id)) || Lost(pg, c, id) {
      assert SettledIn(pg, c)(id, At(r.es, id));
    }
  }

  lemma RowsOpen(outbox: Outbox, rows: seq<nat>, calls: seq<nat>)
    requires DrainsAll(outbox, rows, calls)
    ensures |calls| == |rows| && forall k :: k in rows ==> Open(outbox, k)
  {
    forall k | k in rows ensures Open(outbox, k) { assert k in Unpublished(outbox); }
  }

  lemma RepairSettlesAt(w0: World, c: Drift, rows: seq<nat>, calls: seq<nat>)
    requires TablesOk(w0) && Classifies(w0.pg, w0.es, c) && Quiet(w0)
    requires DrainsAll(Emit(w0, RepairEvents(w0.pg, c)).outbox, rows, calls)
    ensures forall k :: k in rows ==> k in Emit(w0, RepairEvents(w0.pg, c)).outbox
    ensures var w := Emit(w0, RepairEvents(w0.pg, c)); var r := Drain(w.es, w.outbox, rows, calls, MAX_ATTEMPTS);
      && Unpublished(r.outbox) == {}
      && (Classifies(w0.pg, r.es, Clean) <==> forall id :: !Lost(w0.pg, c, id))
  {
    var w := Emit(w0, RepairEvents(w0.pg, c));
    RepairDrained(w0, c, w.outbox, rows, calls);
    var r := Drain(w.es, w.outbox, rows, calls, MAX_ATTEMPTS);
    CleanIffSettled(w0.pg, r.es);
    RowsOpen(w.outbox, rows, calls);
    hide Drain, Emit, RepairEvents, Classifies, Settled, Lost, AnchorsOk, PointersOk, InflightOk, ReadingsOk, Quiet, Enqueue, Unpublished, DrainsAll;
    forall id | Lost(w0.pg, c, id) ensures !Settled(w0.pg, id, At(r.es, id)) {
      LostStaysLost(w0, c, rows, calls, id);
    }
  }

  /** A reconcile that nothing interrupts: it loads, classifies and commits in the same state of affairs. */
  lemma Uninterrupted(w: World, c: Drift)
    requires Classifies(w.pg, w.es, c)
    ensures Enabled(w, Load) && Enabled(Apply(w, Load), Commit(w.pg, w.es, c))
    ensures Apply(w, Load) == w.(readings := w.readings + {Reading(w.pg, w.es)})
  {
    SeenNow(Apply(w, Load).readings, w.pg, w.es);
  }

  /** One uninterrupted repair and one drain against an index that answers. Afterwards nothing is pending, the
      tables are as before, and _classify finds nothing, exactly if no lost summary had an empty text. */
  lemma RepairSettles(ws: seq<World>, actions: seq<Action>, i: nat, c: Drift, rows: seq<nat>, calls: seq<nat>)
    requires Run(ws, actions) && i <= |actions| && Quiet(ws[i]) && Classifies(ws[i].pg, ws[i].es, c)
    requires DrainsAll(Emit(ws[i], RepairEvents(ws[i].pg, c)).outbox, rows, calls)
    ensures Enabled(ws[i], Load) && Enabled(Apply(ws[i], Load), Commit(ws[i].pg, ws[i].es, c))
    ensures var v := Apply(Apply(ws[i], Load), Commit(ws[i].pg, ws[i].es, c));
      && (forall k :: k in rows ==> k in v.outbox)
      && var w' := Runs.AfterDrain(v, rows, calls);
        && w'.pg == ws[i].pg && Unpublished(w'.outbox) == {}
        && (Classifies(w'.pg, w'.es, Clean) <==> forall id :: !Lost(ws[i].pg, c, id))
  {
    Runs.RunTables(ws, actions, i);
    Uninterrupted(ws[i], c);
    CommitIs(Apply(ws[i], Load), ws[i].es, c);
    hide Apply, Enabled, RepairEvents, Classifies, Drain, TablesOk, Run, Lost, Unpublished, Quiet, DrainsAll;
    RepairSettlesAt(ws[i], c, rows, calls);
  }

  lemma CommitIs(w: World, seen: Index, c: Drift)
    requires Enabled(w, Commit(w.pg, seen, c))
    ensures Apply(w, Commit(w.pg, seen, c)) == Emit(w, RepairEvents(w.pg, c))
  {
  }

  /** A document nobody mentions stays as it is. */
  lemma {:induction false} DrainUntouched(es: Index, outbox: Outbox, rows: seq<nat>, calls: seq<nat>, id: Id)
    requires |calls| == |rows| && (forall k :: k in rows ==> k in outbox && !Mentions(outbox[k].event, id))
    ensures At(Drain(es, outbox, rows, calls, MAX_ATTEMPTS).es, id) == At(es, id)
  {
    if rows != [] {
      var n := |rows| - 1;
      DrainLast(es, outbox, rows, calls, MAX_ATTEMPTS);
      hide Drain, Mark;
      DrainUntouched(es, outbox, rows[..n], calls[..n], id);
      DrainFrame(es, outbox, rows[..n], calls[..n], MAX_ATTEMPTS);
      var q := Drain(es, outbox, rows[..n], calls[..n], MAX_ATTEMPTS);
      PublishBetween(q.outbox[rows[n]].event, q.es, calls[n]);
    }
  }

  lemma LostStaysLost(w: World, c: Drift, rows: seq<nat>, calls: seq<nat>, id: Id)
    requires ChunksOk(w.pg) && SummariesOk(w.pg) && Classifies(w.pg, w.es, c) && Lost(w.pg, c, id) && Quiet(w)
    requires forall k :: k in w.outbox ==> k < w.next
    requires var outbox := Enqueue(w.outbox, w.next, w.clock, RepairEvents(w.pg, c));
      |calls| == |rows| && forall k :: k in rows ==> Open(outbox, k)
    ensures var outbox := Enqueue(w.outbox, w.next, w.clock, RepairEvents(w.pg, c));
      !Settled(w.pg, id, At(Drain(w.es, outbox, rows, calls, MAX_ATTEMPTS).es, id))
  {
    var events := RepairEvents(w.pg, c);
    var outbox := Enqueue(w.outbox, w.next, w.clock, events);
    assert !Settled(w.pg, id, At(w.es, id)) by { assert id in MissSummaries(w.pg, w.es); }
    NoneMentioned(w.pg, w.es, c, id);
    assert forall j: nat :: !Open(w.outbox, j);
    hide Settled, Drain, Mentions, Enqueue, RepairEvents, Classifies, Lost, ChunksOk, SummariesOk;
    forall k | k in rows ensures k in outbox && !Mentions(outbox[k].event, id) {
      NewlyOpen(w.outbox, w.next, w.clock, events, k, id);
    }
    DrainUntouched(w.es, outbox, rows, calls, id);
  }

  /** With nothing open before, an open row is one of the new events. */
  lemma NewlyOpen(outbox: Outbox, next: nat, now: nat, events: seq<Event>, k: nat, id: Id)
    requires (forall j :: j in outbox ==> j < next) && (forall j: nat :: !Open(outbox, j)) && Open(Enqueue(outbox, next, now, events), k)
    requires forall i | 0 <= i < |events| :: !Mentions(events[i], id)
    ensures !Mentions(Enqueue(outbox, next, now, events)[k].event, id)
  {
    EnqueueOpen(outbox, next, now, events);
    hide Enqueue, Mentions;
    assert Enqueue(outbox, next, now, events)[k].event == events[k - next];
  }

  lemma NoneMentioned(pg: Pg, es: Index, c: Drift, id: Id)
    requires ChunksOk(pg) && SummariesOk(pg) && Classifies(pg, es, c) && Lost(pg, c, id)
    ensures forall i | 0 <= i < |RepairEvents(pg, c)| :: !Mentions(RepairEvents(pg, c)[i], id)
  {
    var events := RepairEvents(pg, c);
    hide RepairEvents, Classifies, Lost, Mentions, ChunksOk, SummariesOk;
    forall i | 0 <= i < |events| ensures !Mentions(events[i], id) {
      NotMentioned(pg, es, c, i, id);
    }
  }

  lemma NotMentioned(pg: Pg, es: Index, c: Drift, i: nat, id: Id)
    requires ChunksOk(pg) && SummariesOk(pg) && Classifies(pg, es, c) && Lost(pg, c, id) && i < |RepairEvents(pg, c)|
    ensures !Mentions(RepairEvents(pg, c)[i], id)
  {
    assert id in MissSummaries(pg, es);
    RepairEventSound(pg, es, c, i);
    var rebuild, sums := c.missChunks + c.driftChunks, NonEmpty(pg, c.missSummaries);
    if i < |rebuild| {
      assert rebuild[i] in rebuild;
    } else if i < |rebuild| + |sums| {
      assert sums[i - |rebuild|] in sums;
    }
  }

  /** Once everything is delivered to the index of a published file, a reconcile finds nothing; it does not look
      at vectors. */
  lemma QuietClean(w: World)
    requires SyncOk(w) && Quiet(w) && w.pg.flipped
    ensures Classifies(w.pg, w.es, Clean)
  {
    forall id ensures Settled(w.pg, id, At(w.es, id)) {
      assert SafeOf(w.pg, false)(id, At(w.es, id)) && GoodOf(w.pg)(id, At(w.es, id));
    }
    CleanIffSettled(w.pg, w.es);
  }

  lemma SameLength(l: seq<Id>, ids: set<Id>)
    requires Lists(l, ids) && Lists([], ids)
    ensures l == []
  {
    ListsCount(l, ids);
    ListsCount([], ids);
  }

  /** A reconcile that finds nothing emits nothing. */
  lemma CleanEmitsNothing(pg: Pg, es: Index, c: Drift)
    requires Classifies(pg, es, Clean) && Classifies(pg, es, c)
    ensures c == Clean && RepairEvents(pg, c) == []
  {
    assert Lists([], MissChunks(pg, es)) && Lists([], DriftChunks(pg, es)) && Lists([], MissSummaries(pg, es));
    assert Lists([], AvailDrift(pg, es)) && Lists([], RetiredLeaks(pg, es)) && Lists([], Orphans(pg, es));
    SameLength(c.missChunks, MissChunks(pg, es));
    SameLength(c.driftChunks, DriftChunks(pg, es));
    SameLength(c.missSummaries, MissSummaries(pg, es));
    SameLength(c.avail, AvailDrift(pg, es));
    SameLength(c.retired, RetiredLeaks(pg, es));
    SameLength(c.orphans, Orphans(pg, es));
  }
}
