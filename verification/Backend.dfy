/** The imperative layer: one file's tables, its outbox and the shared index as mutable objects, with the
    operations of relay.py, pipeline.py, gc.py and reconcile.py. Each operation is proved to perform actions
    of the protocol, so what is proved of all runs holds of these objects. */
module Backend {
  import opened Schema
  import opened Relay
  import opened Tables
  import opened Pipeline
  import opened Protocol
  import opened TableInvariant
  import opened IndexInvariant
  import opened Incremental
  import Gc
  import Reconcile
  import Collection
  import LateCommit
  import ReconcileConvergence
  import Reuse
  import Runs

  /** The index (app/es_memory.py), except that reading a missing document fails. */
  class FakeES {
    var docs: Index

    constructor (docs: Index)
      ensures this.docs == docs
    {
      this.docs := docs;
    }

    method IndexDoc(id: Id, document: Doc)
      modifies this
      ensures docs == old(docs)[id := document]
    {
      docs := docs[id := document];
    }

    /** Removes the document and says whether it was there; a client may take a missing one for an error. */
    method Delete(id: Id) returns (existed: bool)
      modifies this
      ensures docs == old(docs) - {id} && existed == (id in old(docs))
    {
      existed := id in docs;
      docs := docs - {id};
    }

    method Get(id: Id) returns (source: Option<Doc>)
      ensures source == At(docs, id)
    {
      source := if id in docs then Some(docs[id]) else None;
    }
  }

  datatype DrainReport = DrainReport(published: nat, failed: nat, remaining: nat)

  /** How an index outage hits a drain: None if an event is delivered undisturbed, otherwise the number of
      its documents that still get through. */
  type Outage = nat -> Option<nat>

  /** Transaction A was refused; or something was left unpublished, so that the staged version was not flipped; or the
      new version is published. */
  datatype IngestResult = Rejected | Held(left: nat) | Done

  datatype PurgeReport = OutboxPending | Desync | NothingOld | Purged(counts: Collection.Counts, deleteEvents: nat)

  /** ORDER BY created_at */
  predicate InOrder(outbox: Outbox, rows: seq<nat>) {
    forall i, j | 0 <= i < j < |rows| && rows[i] in outbox && rows[j] in outbox :: outbox[rows[i]].created <= outbox[rows[j]].created
  }

  ghost predicate Healthy(outage: Outage) {
    forall k :: outage(k).None?
  }

  class FileBackend {
    const file: string
    const tenant: string
    const es: FakeES
    var chunks: map<Id, ChunkRow>
    var summaries: map<Id, SummaryRow>
    var anchors: map<Id, AnchorRow>
    var versions: seq<nat>
    var active: Pointers
    var outbox: Outbox
    var next: nat
    var clock: nat
    var flipped: bool
    ghost var issued: set<Id>
    ghost var exact: bool
    ghost var inflight: Option<Inflight>
    ghost var readings: set<Reading>

    function Tables(): Pg
      reads this
    {
      Pg(file, tenant, chunks, summaries, anchors, versions, active, flipped)
    }

    ghost function View(): World
      reads this, es
    {
      World(Tables(), outbox, next, clock, es.docs, inflight, issued, exact, readings)
    }

    ghost predicate Valid()
      reads this, es
    {
      TablesOk(View()) && SyncOk(View())
    }

    /** Registering a file: no versions yet, all pointers at their column default. */
    constructor (file: string, tenant: string, es: FakeES)
      requires forall id | id in es.docs :: !(id.ChunkId? && id.file == file) && !(es.docs[id].file == file && es.docs[id].tenant == tenant)
      ensures this.es == es && Valid() && Initial(View())
    {
      this.file, this.tenant, this.es := file, tenant, es;
      chunks, summaries, anchors, versions := map[], map[], map[], [];
      active := Pointers(1, 1, 1, 1);
      outbox, next, clock := map[], 0, 0;
      flipped, issued, exact, inflight, readings := false, {}, true, None, {};
      new;
      Runs.InitialSync(View());
    }

    // ---------- relay ----------

    /** Deliver one event; false means that it raised. */
    method PublishEvent(e: Event, calls: nat) returns (ok: bool)
      modifies es
      ensures (es.docs, ok) == Publish(e, old(es.docs), calls)
    {
      match e
      case IndexDoc(id, source) =>
        if calls == 0 { return false; }
        es.IndexDoc(id, source);
        return true;
      case SetAvailable(ids, v) =>
        for i := 0 to |ids|
          invariant i <= calls
          invariant SetAll(old(es.docs), ids, v, calls) == SetAll(es.docs, ids[i..], v, calls - i)
        {
          if i == calls { return false; }
          var src := es.Get(ids[i]);
          if src.None? { return false; }
          es.IndexDoc(ids[i], src.value.(visible := v));
          assert ids[i..][1..] == ids[i + 1..];
        }
        return true;
      case Delete(ids) =>
        for i := 0 to |ids|
          invariant i <= calls
          invariant DeleteAll(old(es.docs), ids, calls) == DeleteAll(es.docs, ids[i..], calls - i)
        {
          if i == calls { return false; }
          ghost var before := es.docs;
          var existed := es.Delete(ids[i]);
          assert !existed ==> es.docs == before;
          if !existed && STRICT_DELETE { return false; }
          assert ids[i..][1..] == ids[i + 1..];
        }
        return true;
      case Unknown(_) =>
        return false;
    }

    method PendingCount() returns (n: nat)
      ensures n == |Unpublished(outbox)|
    {
      n := |Unpublished(outbox)|;
    }

    /** SELECT ... WHERE published_at IS NULL ORDER BY created_at; the order of equal times is left open. */
    method SelectUnpublished() returns (rows: seq<nat>)
      ensures Lists(rows, Unpublished(outbox))
      ensures InOrder(outbox, rows)
    {
      rows := [];
      var left := Unpublished(outbox);
      while left != {}
        invariant forall k :: k in Unpublished(outbox) <==> k in left || k in rows
        invariant forall k :: k in rows ==> k !in left
        invariant Distinct(rows) && forall i | 0 <= i < |rows| :: rows[i] in outbox
        invariant forall i, j | 0 <= i < j < |rows| :: outbox[rows[i]].created <= outbox[rows[j]].created
        invariant forall k :: k in left ==> k in outbox
        invariant forall i, k | 0 <= i < |rows| && k in left && k in outbox :: outbox[rows[i]].created <= outbox[k].created
        decreases left
      {
        var k := Earliest(left);
        rows, left := rows + [k], left - {k};
      }
    }

    method Earliest(left: set<nat>) returns (k: nat)
      requires left != {} && forall j :: j in left ==> j in outbox
      ensures k in left && forall j | j in left :: outbox[k].created <= outbox[j].created
    {
      k :| k in left;
      var rest := left - {k};
      while rest != {}
        invariant rest <= left && k in left
        invariant forall j | j in left && j !in rest :: outbox[k].created <= outbox[j].created
        decreases rest
      {
        var j :| j in rest;
        rest := rest - {j};
        if outbox[j].created < outbox[k].created { k := j; }
      }
    }

    /** Attempt each row once; `tx` holds the marks of the uncommitted transaction. */
    method AttemptAll(rows: seq<nat>, calls: seq<nat>) returns (tx: Outbox, published: nat, failed: nat)
      requires |calls| == |rows| && forall k :: k in rows ==> k in outbox
      modifies es
      ensures Drain(old(es.docs), outbox, rows, calls, MAX_ATTEMPTS) == Drained(es.docs, tx, published, failed)
    {
      tx, published, failed := outbox, 0, 0;
      for i := 0 to |rows|
        invariant forall k :: k in rows[..i] ==> k in outbox
        invariant Drain(old(es.docs), outbox, rows[..i], calls[..i], MAX_ATTEMPTS) == Drained(es.docs, tx, published, failed)
      {
        assert rows[i] in rows;
        assert rows[..i + 1][..i] == rows[..i] && calls[..i + 1][..i] == calls[..i];
        var ok := PublishEvent(tx[rows[i]].event, calls[i]);
        tx := Mark(tx, rows[i], ok, MAX_ATTEMPTS);
        if ok { published := published + 1; } else { failed := failed + 1; }
      }
      assert rows[..|rows|] == rows && calls[..|calls|] == calls;
    }

    /** One drain: every unpublished event is attempted once, in creation order, whatever fails. The marks
        belong to one transaction; if the process dies before its commit, only the index has changed. */
    method DrainCore(outage: Outage, survives: bool) returns (report: Option<DrainReport>, ghost rows: seq<nat>, ghost calls: seq<nat>)
      modifies this`outbox, es
      ensures Lists(rows, Unpublished(old(outbox))) && calls == CallsOf(old(outbox), rows, outage)
      ensures Selected(old(outbox), rows) && forall k :: k in rows ==> k in old(outbox)
      ensures InOrder(old(outbox), rows)
      ensures var r := Drain(old(es.docs), old(outbox), rows, calls, MAX_ATTEMPTS);
        && es.docs == r.es && outbox == (if survives then r.outbox else old(outbox))
        && report == if survives then Some(DrainReport(r.published, r.failed, |Unpublished(outbox)|)) else None
    {
      var selected := SelectUnpublished();
      SelectedRows(outbox, selected);
      rows, calls := selected, CallsOf(outbox, selected, outage);
      hide Drain, Selected, Open, Unpublished, Lists, InOrder;
      var tx, published, failed := AttemptAll(selected, CallsOf(outbox, selected, outage));
      if !survives { return None, rows, calls; }
      outbox := tx;
      var remaining := PendingCount();
      return Some(DrainReport(published, failed, remaining)), rows, calls;
    }

    method DrainOutbox(outage: Outage, survives: bool) returns (report: Option<DrainReport>)
      requires Valid()
      modifies this`outbox, es
      ensures Valid() && (report.Some? <==> survives)
      ensures forall k :: k in outbox <==> k in old(outbox)
      ensures forall k: nat :: Open(outbox, k) ==> Open(old(outbox), k)
      ensures survives ==> report.value.published + report.value.failed == |Unpublished(old(outbox))|
      ensures survives ==> report.value.remaining == report.value.failed == |Unpublished(outbox)|
      ensures survives && Healthy(outage) && Removable(old(es.docs), old(outbox)) ==> report.value.remaining == 0
      ensures !survives ==> outbox == old(outbox)
    {
      hide TablesOk, SyncOk, Drain, Selected, Open, Unpublished, Lists, Removable, Healthy, InOrder;
      ghost var w := View();
      ghost var rows, calls;
      report, rows, calls := DrainCore(outage, survives);
      DrainOutcome(w, rows, calls, survives, outage);
      assert View() == WithDrain(w, rows, calls, survives);
    }

    // ---------- ingest ----------

    /** INSERT the events of one transaction. */
    method InsertEvents(events: seq<Event>)
      requires forall k :: k in outbox ==> k < next
      modifies this`outbox, this`next, this`clock
      ensures outbox == Enqueue(old(outbox), old(next), old(clock), events)
      ensures next == old(next) + |events| && clock == old(clock) + 1
    {
      for i := 0 to |events|
        invariant outbox == Enqueue(old(outbox), old(next), clock, events[..i]) && next == old(next) + i && clock == old(clock)
      {
        assert events[..i + 1][..i] == events[..i];
        outbox := outbox[next := OutboxRow(events[i], clock, 0, Pending, false)];
        next := next + 1;
      }
      assert events[..|events|] == events;
      clock := clock + 1;
    }

    method InsertChunks(ids: seq<Id>, rows: seq<ChunkRow>)
      requires |ids| == |rows|
      modifies this`chunks
      ensures chunks == old(chunks) + Bind(ids, rows)
    {
      for i := 0 to |ids|
        invariant chunks == old(chunks) + Bind(ids[..i], rows[..i])
      {
        InsertNext(old(chunks), ids, rows, i);
        hide Bind;
        chunks := chunks[ids[i] := rows[i]];
      }
      assert ids[..|ids|] == ids && rows[..|rows|] == rows;
    }

    /** Each summary is inserted together with its anchor. */
    method InsertSummaries(sids: seq<Id>, sums: seq<SummaryRow>, aids: seq<Id>, ancs: seq<AnchorRow>)
      requires |sids| == |sums| == |aids| == |ancs|
      modifies this`summaries, this`anchors
      ensures summaries == old(summaries) + Bind(sids, sums) && anchors == old(anchors) + Bind(aids, ancs)
    {
      for i := 0 to |sids|
        invariant summaries == old(summaries) + Bind(sids[..i], sums[..i])
        invariant anchors == old(anchors) + Bind(aids[..i], ancs[..i])
      {
        InsertNext(old(summaries), sids, sums, i);
        InsertNext(old(anchors), aids, ancs, i);
        hide Bind;
        summaries := summaries[sids[i] := sums[i]];
        anchors := anchors[aids[i] := ancs[i]];
      }
      assert sids[..|sids|] == sids && sums[..|sums|] == sums && aids[..|aids|] == aids && ancs[..|ancs|] == ancs;
    }

    /** The rows of a new version, in the four tables. */
    method InsertVersion(s: Staging)
      requires Shaped(s)
      modifies this`chunks, this`summaries, this`anchors, this`versions
      ensures Tables() == StagePg(old(Tables()), s)
    {
      hide Bind, ChunkIds, ChunkRows, SummaryRows, AnchorRows, Latest;
      var target := Latest(versions) + 1;
      assert target == Target(Tables());
      InsertChunks(ChunkIds(s.chunks), ChunkRows(s.chunks, target));
      InsertSummaries(s.summaryIds, SummaryRows(s.items, s.coverage, target), s.anchorIds, AnchorRows(s, target));
      versions := versions + [target];
    }

    /** Transaction A: the rows of the new version and their index events. */
    method CommitVersion(s: Staging)
      requires (forall k :: k in outbox ==> k < next) && Shaped(s)
      modifies this`chunks, this`summaries, this`anchors, this`versions, this`outbox, this`next, this`clock
      ensures var w' := StageWorld(old(View()), s);
        Tables() == w'.pg && outbox == w'.outbox && next == w'.next && clock == w'.clock
    {
      StageWorldIs(View(), s);
      hide StagePg, StageEvents, StageWorld, Enqueue;
      var events := StageEvents(Tables(), s);
      InsertVersion(s);
      InsertEvents(events);
    }

    /** The history variables of the action. */
    ghost method Record(w': World)
      modifies this`inflight, this`issued, this`exact
      ensures inflight == w'.inflight && issued == w'.issued && exact == w'.exact && Tables() == old(Tables())
    {
      inflight, issued, exact := w'.inflight, w'.issued, w'.exact;
    }

    /** Whether the database takes the rows: no text holds U+0000, sections fit their columns, and each anchor has one. */
    method Accepts(s: Staging) returns (ok: bool)
      ensures ok <==> StorableChunks(s.chunks) && StorableItems(s.items)
    {
      for i := 0 to |s.chunks|
        invariant StorableChunks(s.chunks[..i])
      {
        if !StorableText(s.chunks[i].content) {
          return false;
        }
        if s.chunks[i].section.Some? && (|s.chunks[i].section.value| > SECTION_LIMIT || !StorableText(s.chunks[i].section.value)) {
          return false;
        }
      }
      assert s.chunks[..|s.chunks|] == s.chunks;
      for i := 0 to |s.items|
        invariant StorableItems(s.items[..i])
      {
        var path := if s.items[i].heading == "" then None else Some(s.items[i].heading);
        if path.None? || |path.value| > SECTION_LIMIT || !StorableText(path.value) || !StorableText(s.items[i].text) {
          return false;
        }
      }
      assert s.items[..|s.items|] == s.items;
      return true;
    }

    /** Either everything is committed or, if the database refuses a row, nothing. */
    method StageTransaction(s: Staging) returns (ok: bool)
      requires (forall k :: k in outbox ==> k < next) && Shaped(s)
      modifies this
      ensures ok <==> StorableChunks(s.chunks) && StorableItems(s.items)
      ensures View() == if ok then StageWorld(old(View()), s) else old(View())
    {
      hide StageWorld, StorableChunks, StorableItems;
      ok := Accepts(s);
      if ok { CommitStage(s); }
    }

    method CommitStage(s: Staging)
      requires (forall k :: k in outbox ==> k < next) && Shaped(s)
      modifies this
      ensures View() == StageWorld(old(View()), s)
    {
      hide StageWorld, Tables, StagePg, StageEvents, Enqueue;
      ghost var w' := StageWorld(View(), s);
      StageWorldIs(View(), s);
      CommitVersion(s);
      Record(w');
    }

    /** The drain barrier: the count that decides whether the flip may happen. */
    method PassBarrier() returns (left: nat)
      requires Valid() && inflight.Some?
      modifies this`inflight
      ensures Valid() && left == |Unpublished(outbox)|
      ensures left == 0 ==> Quiet(View()) && inflight == Some(old(inflight).value.(cleared := true))
      ensures left != 0 ==> inflight == None
    {
      left := PendingCount();
      ghost var w := View();
      hide TablesOk, SyncOk;
      if left == 0 {
        assert Quiet(w) by { Runs.NothingUnpublished(outbox); }
        inflight := Some(inflight.value.(cleared := true));
        TablesKept(w, Barrier);
        SyncKept(w, Barrier);
        assert View() == Apply(w, Barrier);
      } else {
        inflight := None;
        TablesKept(w, Abort);
        SyncKept(w, Abort);
        assert View() == Apply(w, Abort);
      }
    }

    /** The rows of a SELECT without ORDER BY. */
    method ListIds(ids: set<Id>) returns (l: seq<Id>)
      ensures Lists(l, ids)
    {
      l := [];
      var left := ids;
      while left != {}
        invariant Distinct(l) && (forall x :: x in l ==> x !in left)
        invariant forall x :: x in ids <==> x in left || x in l
        decreases left
      {
        var id :| id in left;
        l, left := l + [id], left - {id};
      }
    }

    /** Ids of all rows below the target version. */
    method OldIds(target: nat) returns (ids: seq<Id>)
      requires ChunksOk(Tables()) && SummariesOk(Tables())
      ensures Lists(ids, Below(Tables(), target))
    {
      var pg := Tables();
      var oldChunks := ListIds(ChunksBelow(pg, target));
      var oldSummaries := ListIds(SummariesBelow(pg, target));
      ids := oldChunks + oldSummaries;
      DisjointIds(pg, oldChunks, oldSummaries, target);
    }

    method FlipVersion(target: nat)
      modifies this`active, this`flipped, this`chunks
      ensures Tables() == FlipPg(old(Tables()), target)
    {
      active := Pointers(target, target, target, target);
      flipped := true;
      chunks := map id | id in chunks :: FlippedRow(chunks[id], target);
    }

    /** Transaction B: flip the four pointers and the availability, and tell the index. */
    method FlipTransaction(newIds: seq<Id>, target: nat) returns (ghost oldIds: seq<Id>)
      requires ChunksOk(Tables()) && SummariesOk(Tables()) && forall k :: k in outbox ==> k < next
      modifies this
      ensures Lists(oldIds, Below(old(Tables()), target))
      ensures View() == FlipWorld(old(View()), newIds, oldIds, target)
    {
      hide ChunksOk, SummariesOk, Lists, Below, FlipEvents, FlipPg, Enqueue;
      var ids := OldIds(target);
      FlipVersion(target);
      InsertEvents(FlipEvents(newIds, ids));
      inflight := None;
      oldIds := ids;
    }

    /** Build the sources from the previous version and the index, and stage them. */
    method StageInput(inp: Input, summaryIds: seq<Id>, anchorIds: seq<Id>) returns (staging: Staging, ok: bool)
      requires Valid() && IngestOk(View(), inp, summaryIds, anchorIds)
      modifies this
      ensures staging == Reuse.StagingOf(old(View()), inp, summaryIds, anchorIds) && Shaped(staging) && staging.chunks == inp.chunks
      ensures ok <==> Accepted(old(View()), inp)
      ensures View() == if ok then StageWorld(old(View()), staging) else old(View())
    {
      ghost var w := View();
      StageInputOk(w, inp, summaryIds, anchorIds);
      assert forall k :: k in outbox ==> k < next;
      hide TablesOk, SyncOk, Reuse.InputOk, FreshUuids, BuildVectors, BuildItems, Reuse.Coverage, Listed, Reuse.Ready, Accepted;
      var vecs, items := BuildSources(Tables(), es.docs, inp);
      staging := Staging(inp.chunks, vecs, items, summaryIds, anchorIds, Reuse.Coverage(items, inp.chunks));
      assert staging == Reuse.StagingOf(w, inp, summaryIds, anchorIds);
      hide IngestOk, Reuse.StagingOf, StageWorld;
      ok := StageTransaction(staging);
    }

    /** The first half of ingest_file: build, stage, drain, barrier. Readers see what they saw before. */
    method StagePhase(inp: Input, summaryIds: seq<Id>, anchorIds: seq<Id>, outage: Outage) returns (ok: bool, left: nat, staging: Staging)
      requires Valid() && IngestOk(View(), inp, summaryIds, anchorIds)
      modifies this, es
      ensures Valid() && staging.chunks == inp.chunks && (ok <==> Accepted(old(View()), inp))
      ensures !ok ==> View() == old(View())
      ensures ok ==> Staged(old(View()), View(), staging, left)
      ensures ok && Healthy(outage) && Removable(old(es.docs), old(outbox)) ==> left == 0
      ensures ok ==> (exact <==> old(exact) && old(Reuse.Ready(View(), inp)))
    {
      hide TablesOk, SyncOk, IngestOk, Reuse.StagingOf, Reuse.Ready, Accepted, Staged, StageWorld, Removable, Healthy, Quiet, StagedWell,
        Unpublished, Shaped, NewIds;
      ghost var w := View();
      left := 0;
      staging, ok := StageInput(inp, summaryIds, anchorIds);
      if !ok { return; }
      StagePhaseReady(w, inp, summaryIds, anchorIds, staging);
      ghost var v := View();
      left := DrainBarrier(outage);
      StagedFor(w, v, View(), staging, left);
    }

    /** Drain, then count what is left: the barrier is passed only at zero. */
    method DrainBarrier(outage: Outage) returns (left: nat)
      requires Valid() && inflight.Some?
      modifies this`outbox, this`inflight, es
      ensures Valid() && left == |Unpublished(outbox)|
      ensures left == 0 ==> Quiet(View()) && inflight == Some(old(inflight).value.(cleared := true))
      ensures left != 0 ==> inflight == None
      ensures Healthy(outage) && Removable(old(es.docs), old(outbox)) ==> left == 0
    {
      hide TablesOk, SyncOk, Removable;
      var report := DrainOutbox(outage, true);
      left := PassBarrier();
    }

    /** The second half: flip and drain. The new version becomes visible as a whole. */
    method PublishPhase(newIds: seq<Id>, target: nat, ghost s: Staging, outage: Outage)
      requires Valid() && Quiet(View()) && inflight == Some(Inflight(target, newIds, true)) && newIds == NewIds(s) && Runs.Whole(Tables(), s, target)
      modifies this, es
      ensures Valid() && inflight.None? && versions == old(versions) && exact == old(exact)
      ensures flipped && active == Active(target) && Collection.AvailableChunks(Tables()) == Members(ChunkIds(s.chunks))
      ensures Healthy(outage) ==> Runs.Agrees(View())
    {
      ghost var w := View();
      ghost var oldIds := FlipTransaction(newIds, target);
      FlipDone(w, oldIds, s, target);
      FlipRemovable(w, newIds, oldIds, target);
      hide TablesOk, SyncOk, Enqueue, FlipEvents, Runs.Agrees, Collection.AvailableChunks, Runs.Whole, Removable;
      var _ := DrainOutbox(outage, true);
      if Healthy(outage) { Quieted(View()); }
    }

    /** ingest_file: stage, drain, and flip only past the barrier. It is refused exactly if the database does not take
        some new summary's text or heading or some chunk's text or section, and then changes nothing. Otherwise either the new
        version is published as a whole or, if the first drain left something, readers see what they saw before. */
    method IngestFile(inp: Input, summaryIds: seq<Id>, anchorIds: seq<Id>, outage1: Outage, outage2: Outage) returns (result: IngestResult)
      requires Valid() && IngestOk(View(), inp, summaryIds, anchorIds)
      modifies this, es
      ensures Valid() && inflight.None? && (result.Rejected? <==> !Accepted(old(View()), inp))
      ensures result.Rejected? ==> View() == old(View())
      ensures !result.Rejected? ==> versions == old(versions) + [Target(old(Tables()))]
      ensures result.Held? ==> result.left == |Unpublished(outbox)| > 0 && active == old(active) && flipped == old(flipped)
                               && Collection.AvailableChunks(Tables()) == Collection.AvailableChunks(old(Tables()))
      ensures result.Done? ==> flipped && active == Active(Target(old(Tables())))
                               && Collection.AvailableChunks(Tables()) == Members(ChunkIds(inp.chunks))
      ensures Healthy(outage1) && Removable(old(es.docs), old(outbox)) ==> !result.Held?
      ensures result.Done? && Healthy(outage2) ==> Runs.Agrees(View())
      ensures !result.Rejected? ==> (exact <==> old(exact) && old(Reuse.Ready(View(), inp)))
    {
      var target := Latest(versions) + 1;
      assert inflight.None? && target == Target(Tables());
      hide TablesOk, SyncOk, IngestOk, Reuse.Ready, Runs.Agrees, Runs.Whole, Collection.AvailableChunks, Latest, Target, NewIds, ChunkIds, Accepted,
        Removable, Healthy, Unpublished, Quiet;
      var ok, left, staging := StagePhase(inp, summaryIds, anchorIds, outage1);
      if !ok { return Rejected; }
      if left > 0 { return Held(left); }
      PublishPhase(NewIds(staging), target, staging, outage2);
      return Done;
    }

    // ---------- garbage collection ----------

    /** Slices of at most DELETE_BATCH ids, one delete event each. */
    method DeleteBatches(ids: seq<Id>) returns (events: seq<Event>)
      ensures events == Gc.DeleteEvents(ids)
    {
      events := [];
      var i := 0;
      while i < |ids|
        invariant i <= |ids| && Gc.DeleteEvents(ids) == events + Gc.DeleteEvents(ids[i..])
      {
        var end := if i + Gc.DELETE_BATCH <= |ids| then i + Gc.DELETE_BATCH else |ids|;
        NextBatch(ids[i..], end - i);
        assert ids[i..][..end - i] == ids[i..end] && ids[i..][end - i..] == ids[end..];
        events := events + [Delete(ids[i..end])];
        i := end;
      }
    }

    /** The deletes of one collection: anchors, summaries with their cascade, chunks, versions; returns the
        row counts and the ids to delete from the index. */
    method DeletePurgeable(threshold: int) returns (counts: Collection.Counts, chunkIds: seq<Id>, summaryIds: seq<Id>)
      modifies this`chunks, this`summaries, this`anchors, this`versions
      ensures Tables() == Gc.PurgePg(old(Tables()), threshold)
      ensures counts == Collection.Purgeable(old(Tables()), threshold)
      ensures Lists(chunkIds, ChunksBelow(old(Tables()), threshold)) && Lists(summaryIds, SummariesBelow(old(Tables()), threshold))
    {
      var pg := Tables();
      summaryIds := ListIds(SummariesBelow(pg, threshold));
      chunkIds := ListIds(ChunksBelow(pg, threshold));
      ListsCount(chunkIds, ChunksBelow(pg, threshold));
      ListsCount(summaryIds, SummariesBelow(pg, threshold));
      Collection.RemoveKeys(pg.anchors, Gc.AnchorsBelow(pg, threshold));
      Collection.VersionsLeft(pg.versions, threshold);
      hide Lists, SummariesBelow, ChunksBelow, Gc.AnchorsBelow, Gc.AtLeast, Collection.VersionsBelow;
      var anchors1 := anchors - Gc.AnchorsBelow(pg, threshold);
      var versions1 := Gc.AtLeast(versions, threshold);
      counts := Collection.Counts(|chunkIds|, |summaryIds|, |anchors| - |anchors1|, |versions| - |versions1|);
      anchors := map a | a in anchors1 && anchors1[a].summary !in SummariesBelow(pg, threshold) :: anchors1[a];
      summaries := summaries - SummariesBelow(pg, threshold);
      chunks := chunks - ChunksBelow(pg, threshold);
      versions := versions1;
    }

    /** The deletes and their events, in one transaction. */
    method CollectTransaction(threshold: int) returns (counts: Collection.Counts, deleteEvents: nat, ghost chunkIds: seq<Id>, ghost summaryIds: seq<Id>)
      requires (forall k :: k in outbox ==> k < next) && threshold > 1
      modifies this
      ensures counts == Collection.Purgeable(old(Tables()), threshold)
      ensures Collection.Batches(deleteEvents, counts.chunks + counts.summaries)
      ensures Lists(chunkIds, ChunksBelow(old(Tables()), threshold)) && Lists(summaryIds, SummariesBelow(old(Tables()), threshold))
      ensures View() == CollectWorld(old(View()), threshold, chunkIds + summaryIds)
    {
      hide Gc.PurgePg, Gc.DeleteEvents, Enqueue, Lists, Collection.Purgeable, ChunksBelow, SummariesBelow;
      var cids, sids;
      counts, cids, sids := DeletePurgeable(threshold);
      ListedCounts(old(Tables()), threshold, cids, sids);
      var events := DeleteBatches(cids + sids);
      Collection.DeleteBatchCount(cids + sids);
      InsertEvents(events);
      deleteEvents, chunkIds, summaryIds := |events|, cids, sids;
    }

    /** That transaction and the drain after it. */
    method Purge(retain: nat, outage: Outage) returns (counts: Collection.Counts, deleteEvents: nat)
      requires Valid() && retain >= 1 && Unpublished(outbox) == {} && Gc.LockstepOk(active) && Gc.Threshold(Tables(), retain) > 1
      modifies this, es
      ensures Valid() && Collection.AvailableChunks(Tables()) == Collection.AvailableChunks(old(Tables()))
      ensures counts == Collection.Purgeable(old(Tables()), Gc.Threshold(old(Tables()), retain))
      ensures Collection.Batches(deleteEvents, counts.chunks + counts.summaries)
      ensures Tables() == Gc.PurgePg(old(Tables()), Gc.Threshold(old(Tables()), retain))
      ensures Healthy(outage) ==> Runs.Agrees(View())
    {
      ghost var w := View();
      var t := Gc.Threshold(Tables(), retain);
      assert forall k :: k in outbox ==> k < next;
      hide TablesOk, SyncOk, Runs.Agrees, Collection.AvailableChunks, Gc.PurgePg, Gc.Threshold, Lists, Collection.Purgeable, Unpublished, Removable,
        CollectWorld, Healthy, Collection.Batches;
      ghost var chunkIds, summaryIds;
      counts, deleteEvents, chunkIds, summaryIds := CollectTransaction(t);
      PurgeDone(w, retain, chunkIds, summaryIds);
      PurgeRemovable(w, t, chunkIds, summaryIds);
      CollectedPg(w, t, chunkIds + summaryIds);
      var _ := DrainOutbox(outage, true);
      if Healthy(outage) {
        DrainedClear(outbox);
        Quieted(View());
      }
    }

    /** purge_versions for one file: a dry run reports what an apply deletes; an apply changes nothing that
        readers see. */
    method PurgeVersions(retain: nat, dryRun: bool, outage: Outage) returns (report: PurgeReport)
      requires Valid() && retain >= 1
      modifies this, es
      ensures Valid() && Collection.AvailableChunks(Tables()) == Collection.AvailableChunks(old(Tables()))
      ensures !report.Purged? || dryRun ==> View() == old(View())
      ensures report.OutboxPending? <==> !dryRun && Unpublished(old(outbox)) != {}
      ensures report.Purged? <==> (dryRun || Unpublished(old(outbox)) == {}) && Gc.Threshold(old(Tables()), retain) > 1
      ensures report.Purged? ==> report.counts == Collection.Purgeable(old(Tables()), Gc.Threshold(old(Tables()), retain))
      ensures report.Purged? && !dryRun ==> Tables() == Gc.PurgePg(old(Tables()), Gc.Threshold(old(Tables()), retain))
      ensures report.Purged? <==> (dryRun || Unpublished(old(outbox)) == {}) && old(active).doc > retain
      ensures report.Purged? ==> Collection.CountsOld(old(Tables()), retain, report.counts)
      ensures report.Purged? ==> if dryRun then report.deleteEvents == 0
                                 else Collection.Batches(report.deleteEvents, report.counts.chunks + report.counts.summaries)
      ensures !dryRun && !report.OutboxPending? ==> Collection.Retains(old(Tables()), Tables(), retain)
      ensures report.Purged? && !dryRun && Healthy(outage) ==> Runs.Agrees(View())
    {
      PurgeMeans(View(), retain);
      hide TablesOk, SyncOk, Runs.Agrees, Collection.AvailableChunks, Gc.PurgePg, Collection.Purgeable, Collection.Retains, Collection.CountsOld, Collection.Batches;
      if dryRun {
        if !Gc.LockstepOk(active) { return Desync; }
        var t := Gc.Threshold(Tables(), retain);
        if t <= 1 { return NothingOld; }
        return Purged(Collection.Purgeable(Tables(), t), 0);
      }
      var n := PendingCount();
      if n > 0 { return OutboxPending; }
      if !Gc.LockstepOk(active) { return Desync; }
      var t := Gc.Threshold(Tables(), retain);
      if t <= 1 { return NothingOld; }
      var counts, deleteEvents := Purge(retain, outage);
      return Purged(counts, deleteEvents);
    }

    // ---------- reconciliation ----------

    /** _load_pg: the tables, read in one transaction. */
    method LoadPg() returns (pg: Pg)
      requires TablesOk(View())
      modifies this`readings
      ensures pg == Tables() && View() == Apply(old(View()), Load) && TablesOk(View())
      ensures old(SyncOk(View())) ==> SyncOk(View())
      ensures Reading(pg, es.docs) in readings
    {
      pg := Tables();
      ghost var w := View();
      hide TablesOk, SyncOk, Apply;
      LoadKept(w);
      readings := readings + {Reading(pg, es.docs)};
      assert View() == w.(readings := w.readings + {Reading(w.pg, w.es)});
    }

    /** Active chunks: absent from the index, of the wrong version, or hidden. */
    method ClassifyChunks(pg: Pg) returns (miss: seq<Id>, drift: seq<Id>, avail: seq<Id>)
      ensures Lists(miss, Reconcile.MissChunks(pg, es.docs)) && Lists(drift, Reconcile.DriftChunks(pg, es.docs))
      ensures Lists(avail, HiddenChunks(pg, es.docs))
    {
      var l := ListIds(set id | id in pg.chunks && Reconcile.ActiveChunk(pg, id));
      miss, drift, avail := [], [], [];
      for i := 0 to |l|
        invariant Picks(miss, l[..i], Reconcile.MissChunks(pg, es.docs)) && Picks(drift, l[..i], Reconcile.DriftChunks(pg, es.docs))
        invariant Picks(avail, l[..i], HiddenChunks(pg, es.docs))
      {
        assert l[i] in l && l[..i + 1] == l[..i] + [l[i]] && l[i] !in l[..i];
        var src := es.Get(l[i]);
        if src.None? {
          miss := miss + [l[i]];
        } else if !Reconcile.VersionMatches(pg, src.value) {
          drift := drift + [l[i]];
        } else if !src.value.visible {
          avail := avail + [l[i]];
        }
      }
      assert l[..|l|] == l;
    }

    /** Active summaries: absent or hidden. */
    method ClassifySummaries(pg: Pg) returns (miss: seq<Id>, avail: seq<Id>)
      ensures Lists(miss, Reconcile.MissSummaries(pg, es.docs)) && Lists(avail, HiddenSummaries(pg, es.docs))
    {
      var l := ListIds(set id | id in pg.summaries && Reconcile.ActiveSummary(pg, id));
      miss, avail := [], [];
      for i := 0 to |l|
        invariant Picks(miss, l[..i], Reconcile.MissSummaries(pg, es.docs)) && Picks(avail, l[..i], HiddenSummaries(pg, es.docs))
      {
        assert l[i] in l && l[..i + 1] == l[..i] + [l[i]] && l[i] !in l[..i];
        var src := es.Get(l[i]);
        if src.None? {
          miss := miss + [l[i]];
        } else if !src.value.visible {
          avail := avail + [l[i]];
        }
      }
      assert l[..|l|] == l;
    }

    /** A scan of the index: visible documents of the file that are not active. */
    method ClassifyScan(pg: Pg) returns (retired: seq<Id>, orphans: seq<Id>)
      ensures Lists(retired, Reconcile.RetiredLeaks(pg, es.docs)) && Lists(orphans, Reconcile.Orphans(pg, es.docs))
    {
      var l := ListIds(es.docs.Keys);
      retired, orphans := [], [];
      for i := 0 to |l|
        invariant Picks(retired, l[..i], Reconcile.RetiredLeaks(pg, es.docs)) && Picks(orphans, l[..i], Reconcile.Orphans(pg, es.docs))
      {
        assert l[i] in l && l[..i + 1] == l[..i] + [l[i]] && l[i] !in l[..i];
        var src := es.docs[l[i]];
        if Reconcile.Labelled(pg, src) && !ActiveId(pg, l[i]) && src.visible {
          if l[i] in pg.chunks || l[i] in pg.summaries {
            retired := retired + [l[i]];
          } else {
            orphans := orphans + [l[i]];
          }
        }
      }
      assert l[..|l|] == l;
    }

    /** _classify: the loaded tables against the index as it is by now. */
    method Classify(pg: Pg) returns (c: Reconcile.Drift)
      requires ChunksOk(pg) && SummariesOk(pg)
      ensures Reconcile.Classifies(pg, es.docs, c) && Reconcile.Reported(pg, es.docs, c)
    {
      var missC, driftC, availC := ClassifyChunks(pg);
      var missS, availS := ClassifySummaries(pg);
      var retired, orphans := ClassifyScan(pg);
      c := Reconcile.Drift(missC, driftC, missS, availC + availS, retired, orphans);
      ListsAvail(pg, es.docs, availC, availS);
      Reconcile.ClassifiesIffReported(pg, es.docs, c);
    }

    /** The repair transaction and its drain. */
    method CommitRepair(pg: Pg, c: Reconcile.Drift, outage: Outage) returns (ghost rows: seq<nat>, ghost calls: seq<nat>)
      requires Reconcile.Repairable(pg, c) && forall k :: k in outbox ==> k < next
      modifies this`outbox, this`next, this`clock, es
      ensures DrainsRepair(old(View()), pg, c, rows, calls, outage) && View() == Repaired(old(View()), pg, c, rows, calls)
    {
      ghost var w := View();
      var events := Reconcile.RepairEvents(pg, c);
      hide Reconcile.RepairEvents, Enqueue, Drain, Selected, Unpublished, Lists, CallsOf;
      InsertEvents(events);
      assert View() == Emit(w, events);
      var report;
      report, rows, calls := DrainCore(outage, true);
    }

    /** Committing and draining a repair, however long ago its tables were loaded and its documents read. If its
        events still fit, the invariant holds on. */
    method Repair(pg: Pg, ghost seen: Index, c: Reconcile.Drift, outage: Outage)
      requires TablesOk(View()) && Enabled(View(), Commit(pg, seen, c))
      modifies this`outbox, this`next, this`clock, es
      ensures TablesOk(View()) && Tables() == old(Tables())
      ensures old(SyncOk(View())) && AllFit(old(View()), Reconcile.RepairEvents(pg, c)) ==> SyncOk(View())
      ensures pg == Tables() && seen == old(es.docs) && Healthy(outage) && Quiet(old(View())) ==>
        && Unpublished(outbox) == {}
        && (Reconcile.Classifies(pg, es.docs, Reconcile.Clean) <==> forall id :: !ReconcileConvergence.Lost(pg, c, id))
    {
      ghost var w := View();
      assert forall k :: k in outbox ==> k < next;
      hide TablesOk, SyncOk, Reconcile.Classifies, DrainsRepair, Repaired, Quiet, ReconcileConvergence.Lost, Seen, AllFit, Reconcile.RepairEvents;
      ghost var rows, calls := CommitRepair(pg, c, outage);
      RepairOutcome(w, pg, seen, c, rows, calls, outage);
    }

    /** reconcile for one file, with nothing in between, from any index content: a report changes nothing; a repair
        against an index that answers leaves nothing to repair, except summaries it has no text to rebuild from. */
    method ReconcileFile(dryRun: bool, outage: Outage) returns (c: Reconcile.Drift)
      requires TablesOk(View())
      modifies this`outbox, this`next, this`clock, this`readings, es
      ensures TablesOk(View()) && Tables() == old(Tables())
      ensures Reconcile.Classifies(Tables(), old(es.docs), c) && Reconcile.Reported(Tables(), old(es.docs), c)
      ensures dryRun ==> View() == Apply(old(View()), Load)
      ensures old(Valid()) && (LateCommit.EarlyWindow(old(View())) ==> c.avail == []) ==> Valid()
      ensures !dryRun && Healthy(outage) && Quiet(old(View())) ==>
        && Unpublished(outbox) == {}
        && (Reconcile.Classifies(Tables(), es.docs, Reconcile.Clean) <==> forall id :: !ReconcileConvergence.Lost(Tables(), c, id))
        && (Reconcile.Classifies(Tables(), es.docs, Reconcile.Clean) <==> ReconcileConvergence.InOrder(Tables(), es.docs))
    {
      hide TablesOk, SyncOk, ChunksOk, SummariesOk, Reconcile.Classifies, ReconcileConvergence.Lost, AllFit, Seen, Reconcile.Reported,
        ReconcileConvergence.InOrder, Reconcile.RepairEvents;
      ghost var w0 := View();
      var pg := LoadPg();
      assert View() == w0.(readings := View().readings);
      hide Apply, Enabled;
      ghost var w := View();
      TablesStored(w);
      c := Classify(pg);
      assert View() == w;
      PromptCommit(w, c);
      if dryRun {
        return;
      }
      Repair(pg, es.docs, c, outage);
      ReconcileConvergence.CleanMeans(Tables(), es.docs);
    }
  }

  lemma LoadKept(w: World)
    requires TablesOk(w)
    ensures Apply(w, Load) == w.(readings := w.readings + {Reading(w.pg, w.es)})
    ensures TablesOk(Apply(w, Load)) && (SyncOk(w) ==> SyncOk(Apply(w, Load)))
  {
    hide TablesOk, SyncOk;
    TablesKept(w, Load);
    if SyncOk(w) { SyncKept(w, Load); }
  }

  /** A repair commits in the state it has read. */
  lemma PromptCommit(w: World, c: Reconcile.Drift)
    requires TablesOk(w) && Reading(w.pg, w.es) in w.readings && Reconcile.Classifies(w.pg, w.es, c)
    ensures Enabled(w, Commit(w.pg, w.es, c))
    ensures SyncOk(w) && (LateCommit.EarlyWindow(w) ==> c.avail == []) ==> AllFit(w, Reconcile.RepairEvents(w.pg, c))
  {
    SeenNow(w.readings, w.pg, w.es);
    hide TablesOk, Sync, Traced, Reconcile.RepairEvents, AllFit, Reconcile.Classifies;
    if SyncOk(w) { LateCommit.PromptFits(w, c); }
  }

  /** The rows and calls of a drain after the repair's commit. */
  ghost predicate DrainsRepair(w: World, pg: Pg, c: Reconcile.Drift, rows: seq<nat>, calls: seq<nat>, outage: Outage)
    requires Reconcile.Repairable(pg, c)
  {
    var outbox := Emit(w, Reconcile.RepairEvents(pg, c)).outbox;
    && Lists(rows, Unpublished(outbox)) && calls == CallsOf(outbox, rows, outage) && Selected(outbox, rows)
    && forall k :: k in rows ==> k in outbox
  }

  ghost function Repaired(w: World, pg: Pg, c: Reconcile.Drift, rows: seq<nat>, calls: seq<nat>): World
    requires Reconcile.Repairable(pg, c) && |calls| == |rows|
    requires forall k :: k in rows ==> k in Emit(w, Reconcile.RepairEvents(pg, c)).outbox
  {
    Runs.AfterDrain(Emit(w, Reconcile.RepairEvents(pg, c)), rows, calls)
  }

  lemma RepairOutcome(w: World, pg: Pg, seen: Index, c: Reconcile.Drift, rows: seq<nat>, calls: seq<nat>, outage: Outage)
    requires TablesOk(w) && Enabled(w, Commit(pg, seen, c)) && Reconcile.Repairable(pg, c) && DrainsRepair(w, pg, c, rows, calls, outage)
    ensures |calls| == |rows| && forall k :: k in rows ==> k in Emit(w, Reconcile.RepairEvents(pg, c)).outbox
    ensures var w' := Repaired(w, pg, c, rows, calls);
      && TablesOk(w') && w'.pg == w.pg
      && (SyncOk(w) && AllFit(w, Reconcile.RepairEvents(pg, c)) ==> SyncOk(w'))
      && (pg == w.pg && seen == w.es && Healthy(outage) && Quiet(w) ==>
            Unpublished(w'.outbox) == {} && (Reconcile.Classifies(pg, w'.es, Reconcile.Clean) <==> forall id :: !ReconcileConvergence.Lost(pg, c, id)))
  {
    hide TablesOk, SyncOk, Reconcile.RepairEvents, Reconcile.Classifies, Drain, Repaired, Emit, ReconcileConvergence.Lost, Unpublished, AllFit,
      Seen, Enabled, Quiet, Healthy, Lists, Selected;
    RepairTables(w, pg, seen, c, rows, calls, outage);
    if SyncOk(w) && AllFit(w, Reconcile.RepairEvents(pg, c)) { RepairInSync(w, pg, seen, c, rows, calls, outage); }
    if pg == w.pg && seen == w.es && Healthy(outage) && Quiet(w) {
      CommitClassifies(w, c);
      RepairDone(w, c, rows, calls, outage);
    }
  }

  lemma CommitClassifies(w: World, c: Reconcile.Drift)
    requires Enabled(w, Commit(w.pg, w.es, c))
    ensures Reconcile.Classifies(w.pg, w.es, c)
  {
  }

  lemma RepairTables(w: World, pg: Pg, seen: Index, c: Reconcile.Drift, rows: seq<nat>, calls: seq<nat>, outage: Outage)
    requires TablesOk(w) && Enabled(w, Commit(pg, seen, c)) && DrainsRepair(w, pg, c, rows, calls, outage)
    ensures TablesOk(Repaired(w, pg, c, rows, calls)) && Repaired(w, pg, c, rows, calls).pg == w.pg
  {
    var v := Emit(w, Reconcile.RepairEvents(pg, c));
    EmitKeeps(w, Reconcile.RepairEvents(pg, c));
    DrainFrame(v.es, v.outbox, rows, calls, MAX_ATTEMPTS);
    hide Emit, Drain, Reconcile.RepairEvents, ChunksOk, SummariesOk, AnchorsOk, PointersOk, InflightOk, ReadingsOk, Enabled;
    SameRows(v, Repaired(w, pg, c, rows, calls));
  }

  lemma EmitKeeps(w: World, events: seq<Event>)
    requires TablesOk(w)
    ensures TablesOk(Emit(w, events)) && Emit(w, events).pg == w.pg
  {
    hide ChunksOk, SummariesOk, AnchorsOk, PointersOk, InflightOk, ReadingsOk;
    SameRows(w, Emit(w, events));
  }

  lemma RepairInSync(w: World, pg: Pg, seen: Index, c: Reconcile.Drift, rows: seq<nat>, calls: seq<nat>, outage: Outage)
    requires TablesOk(w) && Enabled(w, Commit(pg, seen, c)) && DrainsRepair(w, pg, c, rows, calls, outage)
    requires SyncOk(w) && AllFit(w, Reconcile.RepairEvents(pg, c))
    ensures SyncOk(Repaired(w, pg, c, rows, calls))
  {
    RepairValid(w, pg, seen, c);
    hide TablesOk, SyncOk, Emit, Drain, Reconcile.RepairEvents, Reconcile.Classifies, AllFit, Enabled;
    DrainedValid(Emit(w, Reconcile.RepairEvents(pg, c)), rows, calls, true);
  }

  lemma RepairDone(w: World, c: Reconcile.Drift, rows: seq<nat>, calls: seq<nat>, outage: Outage)
    requires TablesOk(w) && Reconcile.Classifies(w.pg, w.es, c) && DrainsRepair(w, w.pg, c, rows, calls, outage)
    requires Healthy(outage) && Quiet(w)
    ensures Unpublished(Repaired(w, w.pg, c, rows, calls).outbox) == {}
    ensures Reconcile.Classifies(w.pg, Repaired(w, w.pg, c, rows, calls).es, Reconcile.Clean) <==> forall id :: !ReconcileConvergence.Lost(w.pg, c, id)
  {
    assert ReconcileConvergence.DrainsAll(Emit(w, Reconcile.RepairEvents(w.pg, c)).outbox, rows, calls);
    hide TablesOk, Drain, Reconcile.RepairEvents, Reconcile.Classifies, ReconcileConvergence.Lost, Unpublished, Enqueue, ReconcileConvergence.DrainsAll;
    ReconcileConvergence.RepairSettlesAt(w, c, rows, calls);
  }

  lemma RepairValid(w: World, pg: Pg, seen: Index, c: Reconcile.Drift)
    requires TablesOk(w) && SyncOk(w) && Enabled(w, Commit(pg, seen, c)) && AllFit(w, Reconcile.RepairEvents(pg, c))
    ensures TablesOk(Emit(w, Reconcile.RepairEvents(pg, c))) && SyncOk(Emit(w, Reconcile.RepairEvents(pg, c)))
  {
    var a := Commit(pg, seen, c);
    assert Proper(w, a) && Apply(w, a) == Emit(w, Reconcile.RepairEvents(pg, c));
    hide TablesOk, SyncOk, Enabled, Apply, Proper, Emit, Reconcile.RepairEvents, AllFit;
    TablesKept(w, a);
    SyncKept(w, a);
  }

  /** acc lists the members of the set among the ids seen so far. */
  ghost predicate Picks(acc: seq<Id>, seen: seq<Id>, ids: set<Id>) {
    Distinct(acc) && forall id :: id in acc <==> id in seen && id in ids
  }

  lemma ListedCounts(pg: Pg, threshold: int, chunkIds: seq<Id>, summaryIds: seq<Id>)
    requires Lists(chunkIds, ChunksBelow(pg, threshold)) && Lists(summaryIds, SummariesBelow(pg, threshold))
    ensures var n := Collection.Purgeable(pg, threshold); |chunkIds + summaryIds| == n.chunks + n.summaries
  {
    ListsCount(chunkIds, ChunksBelow(pg, threshold));
    ListsCount(summaryIds, SummariesBelow(pg, threshold));
    hide Lists, ChunksBelow, SummariesBelow, Collection.VersionsBelow;
  }

  /** What a collection of the file would keep, delete and count. */
  lemma PurgeMeans(w: World, retain: nat)
    requires TablesOk(w)
    ensures var t := Gc.Threshold(w.pg, retain);
      && Gc.LockstepOk(w.pg.active) && (t > 1 <==> w.pg.active.doc > retain)
      && Collection.CountsOld(w.pg, retain, Collection.Purgeable(w.pg, t))
      && Collection.Retains(w.pg, if t > 1 then Gc.PurgePg(w.pg, t) else w.pg, retain)
  {
    hide ChunksOk, SummariesOk, AnchorsOk, IssuedOk, InflightOk, ReadingsOk, Collection.Retains, Collection.CountsOld, Collection.Purgeable, Gc.PurgePg;
    Collection.ProjectionCounts(w.pg, retain);
    if Gc.Threshold(w.pg, retain) > 1 {
      Collection.PurgeRetains(w.pg, retain);
    } else {
      Collection.NothingOld(w.pg, retain);
    }
  }

  function HiddenChunks(pg: Pg, docs: Index): set<Id> {
    set id | id in docs && Reconcile.ActiveChunk(pg, id) && Reconcile.VersionMatches(pg, docs[id]) && !docs[id].visible
  }

  function HiddenSummaries(pg: Pg, docs: Index): set<Id> {
    set id | id in docs && Reconcile.ActiveSummary(pg, id) && !docs[id].visible
  }

  lemma ListsAvail(pg: Pg, docs: Index, a: seq<Id>, b: seq<Id>)
    requires ChunksOk(pg) && SummariesOk(pg) && Lists(a, HiddenChunks(pg, docs)) && Lists(b, HiddenSummaries(pg, docs))
    ensures Lists(a + b, Reconcile.AvailDrift(pg, docs))
  {
    forall i, j | 0 <= i < |a| && 0 <= j < |b| ensures a[i] != b[j] {
      assert a[i] in a && b[j] in b;
    }
  }

  lemma NextBatch(ids: seq<Id>, n: nat)
    requires ids != [] && n == if Gc.DELETE_BATCH <= |ids| then Gc.DELETE_BATCH else |ids|
    ensures Gc.DeleteEvents(ids) == [Delete(ids[..n])] + Gc.DeleteEvents(ids[n..])
  {
    if |ids| <= Gc.DELETE_BATCH {
      assert ids[..n] == ids && ids[n..] == [];
    }
  }

  lemma PurgeDone(w: World, retain: nat, chunkIds: seq<Id>, summaryIds: seq<Id>)
    requires TablesOk(w) && SyncOk(w) && retain >= 1 && Unpublished(w.outbox) == {} && Gc.Threshold(w.pg, retain) > 1
    requires Lists(chunkIds, ChunksBelow(w.pg, Gc.Threshold(w.pg, retain)))
    requires Lists(summaryIds, SummariesBelow(w.pg, Gc.Threshold(w.pg, retain)))
    ensures var w' := CollectWorld(w, Gc.Threshold(w.pg, retain), chunkIds + summaryIds);
      && TablesOk(w') && SyncOk(w') && w'.pg.flipped && Collection.AvailableChunks(w'.pg) == Collection.AvailableChunks(w.pg)
  {
    var a := Collect(retain, chunkIds, summaryIds);
    Runs.NothingUnpublished(w.outbox);
    assert Enabled(w, a) && w.pg.flipped;
    TablesKept(w, a);
    SyncKept(w, a);
    Collection.CollectKeepsAvailable(w, retain, chunkIds, summaryIds);
  }

  /** What ingest_file is given: chunks and listings as its helpers produce them, and new uuids; no other
      ingest of the file is running. */
  ghost predicate IngestOk(w: World, inp: Input, summaryIds: seq<Id>, anchorIds: seq<Id>) {
    && w.inflight.None? && Reuse.InputOk(w, inp)
    && |summaryIds| == |anchorIds| == |BuildItems(w.pg, w.es, inp)|
    && FreshUuids(w, summaryIds) && FreshUuids(w, anchorIds) && forall id :: id in summaryIds ==> id !in anchorIds
  }

  lemma StagePgFile(pg: Pg, s: Staging)
    requires Shaped(s)
    ensures var pg' := StagePg(pg, s);
      pg'.versions == pg.versions + [Target(pg)] && pg'.active == pg.active && pg'.flipped == pg.flipped
  {
  }

  lemma StageWorldIs(w: World, s: Staging)
    requires Shaped(s)
    ensures var w' := StageWorld(w, s);
      && w'.pg == StagePg(w.pg, s) && w'.es == w.es && w'.readings == w.readings && w'.clock == w.clock + 1
      && w'.outbox == Enqueue(w.outbox, w.next, w.clock, StageEvents(w.pg, s)) && w'.next == w.next + |StageEvents(w.pg, s)|
  {
  }

  /** The database takes every chunk's text and section and every newly written summary's text and heading. */
  ghost predicate Accepted(w: World, inp: Input)
    requires Listed(w.pg, inp)
  {
    && (forall i | 0 <= i < |inp.chunks| ::
          && '\U{0}' !in inp.chunks[i].content
          && (inp.chunks[i].section.Some? ==> |inp.chunks[i].section.value| <= 512 && '\U{0}' !in inp.chunks[i].section.value))
    && (forall it | it in NewSummaries(w.pg, inp) :: '\U{0}' !in it.text && 0 < |it.heading| <= 512 && '\U{0}' !in it.heading)
  }

  lemma AcceptedMeans(w: World, inp: Input)
    requires Listed(w.pg, inp)
    ensures Accepted(w, inp) <==> StorableChunks(inp.chunks) && forall it | it in NewSummaries(w.pg, inp) :: StorableSummary(it.text, it.heading)
  {
    hide NewSummaries;
    forall i | 0 <= i < |inp.chunks|
      ensures StorableChunk(inp.chunks[i]) <==>
        && '\U{0}' !in inp.chunks[i].content
        && (inp.chunks[i].section.Some? ==> |inp.chunks[i].section.value| <= 512 && '\U{0}' !in inp.chunks[i].section.value)
    {
    }
  }

  /** What building from the input needs, and when the database takes the result. */
  lemma StageInputOk(w: World, inp: Input, summaryIds: seq<Id>, anchorIds: seq<Id>)
    requires TablesOk(w) && IngestOk(w, inp, summaryIds, anchorIds)
    ensures var s := Reuse.StagingOf(w, inp, summaryIds, anchorIds);
      Listed(w.pg, inp) && Shaped(s) && (Accepted(w, inp) <==> StorableChunks(s.chunks) && StorableItems(s.items))
  {
    assert Listed(w.pg, inp);
    hide Accepted, BuildItems, NewSummaries, StorableItems, StorableChunks, FreshUuids, Listed;
    Reuse.StorableIff(w, inp);
    hide TablesOk;
    AcceptedMeans(w, inp);
  }

  /** What the first drain starts from. */
  lemma StagePhaseReady(w: World, inp: Input, summaryIds: seq<Id>, anchorIds: seq<Id>, s: Staging)
    requires TablesOk(w) && SyncOk(w) && IngestOk(w, inp, summaryIds, anchorIds) && Accepted(w, inp)
    requires s == Reuse.StagingOf(w, inp, summaryIds, anchorIds)
    ensures Shaped(s) && StagedWell(w, s) && TablesOk(StageWorld(w, s)) && SyncOk(StageWorld(w, s)) && StageWorld(w, s).inflight.Some?
    ensures Listed(w.pg, inp) && (StageWorld(w, s).exact <==> w.exact && Reuse.Ready(w, inp))
    ensures Removable(w.es, w.outbox) ==> Removable(StageWorld(w, s).es, StageWorld(w, s).outbox)
  {
    hide StageWorld, IngestOk, Accepted, Reuse.Ready, Removable, SyncOk, TablesOk;
    StageReady(w, inp, summaryIds, anchorIds);
    StagedFlight(w, s);
    if Removable(w.es, w.outbox) { StageRemovable(w, s); }
  }

  /** From w to w', a version was staged and drained; `left` events are still unpublished. */
  ghost predicate Staged(w: World, w': World, s: Staging, left: nat) {
    && Runs.Whole(w'.pg, s, Target(w.pg)) && w'.pg.versions == w.pg.versions + [Target(w.pg)]
    && w'.pg.active == w.pg.active && w'.pg.flipped == w.pg.flipped
    && Collection.AvailableChunks(w'.pg) == Collection.AvailableChunks(w.pg) && left == |Unpublished(w'.outbox)|
    && (if left == 0 then Quiet(w') && w'.inflight == Some(Inflight(Target(w.pg), NewIds(s), true)) else w'.inflight == None)
  }

  lemma StagedFor(w: World, v: World, w': World, s: Staging, left: nat)
    requires Shaped(s) && v == StageWorld(w, s) && StagedWell(w, s) && w'.pg == v.pg && left == |Unpublished(w'.outbox)|
    requires left == 0 ==> Quiet(w') && w'.inflight == Some(v.inflight.value.(cleared := true))
    requires left != 0 ==> w'.inflight == None
    ensures Staged(w, w', s, left)
  {
    StagePgFile(w.pg, s);
    StagedFlight(w, s);
    hide StageWorld, StagePg, Runs.Whole, Collection.AvailableChunks, TablesOk, SyncOk, NewIds, Latest;
  }

  lemma StagedFlight(w: World, s: Staging)
    requires Shaped(s)
    ensures StageWorld(w, s).pg == StagePg(w.pg, s) && StageWorld(w, s).inflight == Some(Inflight(Target(w.pg), NewIds(s), false))
  {
  }

  lemma StageRemovable(w: World, s: Staging)
    requires Shaped(s) && TablesOk(w) && Removable(w.es, w.outbox)
    ensures Removable(StageWorld(w, s).es, StageWorld(w, s).outbox)
  {
    StageWorldIs(w, s);
    var events := StageEvents(w.pg, s);
    forall i | 0 <= i < |events| ensures !events[i].Delete? { StageEventAt(w.pg, s, i); }
    assert forall k :: k in w.outbox ==> k < w.next;
    hide StageWorld, StageEvents, Removable, Enqueue, TablesOk;
    EnqueueRemovable(w.es, w.outbox, w.next, w.clock, events);
  }

  lemma FlipRemovable(w: World, newIds: seq<Id>, oldIds: seq<Id>, target: nat)
    requires Quiet(w) && forall k :: k in w.outbox ==> k < w.next
    ensures Removable(FlipWorld(w, newIds, oldIds, target).es, FlipWorld(w, newIds, oldIds, target).outbox)
  {
    var events := FlipEvents(newIds, oldIds);
    assert forall i | 0 <= i < |events| :: !events[i].Delete?;
    assert forall k: nat :: !Open(w.outbox, k);
    hide FlipEvents, FlipPg, Enqueue;
    EnqueueRemovable(w.es, w.outbox, w.next, w.clock, events);
  }

  lemma CollectedPg(w: World, t: int, ids: seq<Id>)
    requires t > 1
    ensures CollectWorld(w, t, ids).pg == Gc.PurgePg(w.pg, t)
  {
    hide Gc.PurgePg, Gc.DeleteEvents, Enqueue;
  }

  lemma DrainedClear(outbox: Outbox)
    requires |Unpublished(outbox)| == 0
    ensures Unpublished(outbox) == {}
  {
  }

  /** What a collection deletes is all there, since nothing was outstanding. */
  lemma PurgeRemovable(w: World, t: int, chunkIds: seq<Id>, summaryIds: seq<Id>)
    requires TablesOk(w) && SyncOk(w) && Unpublished(w.outbox) == {} && t > 1
    requires Lists(chunkIds, ChunksBelow(w.pg, t)) && Lists(summaryIds, SummariesBelow(w.pg, t))
    ensures Removable(CollectWorld(w, t, chunkIds + summaryIds).es, CollectWorld(w, t, chunkIds + summaryIds).outbox)
  {
    Runs.NothingUnpublished(w.outbox);
    DisjointIds(w.pg, chunkIds, summaryIds, t);
    forall id | id in chunkIds + summaryIds ensures id in w.es {
      assert GoodOf(w.pg)(id, At(w.es, id)) && id in Below(w.pg, t);
    }
    assert forall k :: k in w.outbox ==> k < w.next;
    hide TablesOk, SyncOk, Gc.DeleteEvents, Gc.PurgePg, Enqueue, Removable, Below;
    Collection.DeletionsRemovable(w.es, w.outbox, w.next, w.clock, chunkIds + summaryIds);
  }

  ghost predicate StagedWell(w: World, s: Staging)
    requires Shaped(s)
  {
    && TablesOk(StageWorld(w, s)) && SyncOk(StageWorld(w, s))
    && Runs.Whole(StagePg(w.pg, s), s, Target(w.pg))
    && Collection.AvailableChunks(StagePg(w.pg, s)) == Collection.AvailableChunks(w.pg)
  }

  lemma StageReady(w: World, inp: Input, summaryIds: seq<Id>, anchorIds: seq<Id>)
    requires TablesOk(w) && SyncOk(w) && IngestOk(w, inp, summaryIds, anchorIds) && Accepted(w, inp)
    ensures var s := Reuse.StagingOf(w, inp, summaryIds, anchorIds);
      && Listed(w.pg, inp) && Shaped(s) && s.chunks == inp.chunks
      && StagedWell(w, s)
      && (StageWorld(w, s).exact <==> w.exact && Reuse.Ready(w, inp))
  {
    hide Accepted;
    var s := Reuse.StagingOf(w, inp, summaryIds, anchorIds);
    StageInputOk(w, inp, summaryIds, anchorIds);
    Reuse.BuiltStageOk(w, inp, summaryIds, anchorIds);
    hide ChunksOk, SummariesOk, AnchorsOk, PointersOk, IssuedOk, InflightOk, Sync, StagedWell, Reuse.Ready, ExactVectors, Listed;
    StageDone(w, s);
    if w.exact {
      Reuse.SyncPrevExact(w);
      Reuse.ExactIffReady(w, inp, summaryIds, anchorIds);
    }
  }

  lemma Quieted(w: World)
    requires TablesOk(w) && SyncOk(w) && w.pg.flipped && Unpublished(w.outbox) == {}
    ensures Runs.Agrees(w)
  {
    Runs.QuietAgrees(w);
  }

  function Active(v: nat): Pointers {
    Pointers(v, v, v, v)
  }

  lemma StageDone(w: World, s: Staging)
    requires TablesOk(w) && SyncOk(w) && w.inflight.None? && StageOk(w, s)
    ensures StagedWell(w, s)
  {
    StageInvariant(w, s);
    StageAvailable(w, s);
    StageWhole(w, s);
    hide TablesOk, SyncOk, StageWorld, StagePg, StageOk, Runs.Whole, Collection.AvailableChunks, Latest;
  }

  lemma StageWhole(w: World, s: Staging)
    requires TablesOk(w) && w.inflight.None? && StageOk(w, s)
    ensures Runs.Whole(StagePg(w.pg, s), s, Target(w.pg))
  {
    assert Shaped(s);
    hide TablesOk, StageOk, Runs.Whole, Enabled, Apply, StagePg, Proper;
    StageEnabled(w, s);
    Runs.WholeStaged(w, s);
    StagedFlight(w, s);
  }

  lemma StageInvariant(w: World, s: Staging)
    requires TablesOk(w) && SyncOk(w) && w.inflight.None? && StageOk(w, s)
    ensures TablesOk(StageWorld(w, s)) && SyncOk(StageWorld(w, s))
  {
    hide TablesOk, SyncOk, StageOk, Apply, Enabled, Proper, StageWorld;
    StageEnabled(w, s);
    TablesKept(w, Stage(s));
    SyncKept(w, Stage(s));
  }

  lemma StageEnabled(w: World, s: Staging)
    requires w.inflight.None? && StageOk(w, s)
    ensures Enabled(w, Stage(s)) && Proper(w, Stage(s)) && Apply(w, Stage(s)) == StageWorld(w, s)
  {
    hide StageOk, StageWorld;
  }

  lemma StageAvailable(w: World, s: Staging)
    requires IssuedOk(w) && StageOk(w, s)
    ensures Collection.AvailableChunks(StagePg(w.pg, s)) == Collection.AvailableChunks(w.pg)
  {
    StagedNewChunks(w, s);
    StagedChunks(w, s);
  }

  lemma FlipDone(w: World, oldIds: seq<Id>, s: Staging, target: nat)
    requires TablesOk(w) && SyncOk(w) && w.inflight == Some(Inflight(target, NewIds(s), true))
    requires Lists(oldIds, Below(w.pg, target)) && Runs.Whole(w.pg, s, target)
    ensures var w' := FlipWorld(w, NewIds(s), oldIds, target);
      && TablesOk(w') && SyncOk(w')
      && Collection.AvailableChunks(w'.pg) == Members(ChunkIds(s.chunks))
  {
    hide TablesOk, SyncOk, FlipWorld, Runs.Whole, Collection.AvailableChunks, Lists, Below, NewIds;
    FlipInvariant(w, NewIds(s), oldIds, target);
    Runs.WholeFlip(w.pg, target, s, target);
    FlippedPg(w, NewIds(s), oldIds, target);
    assert ChunksOk(FlipPg(w.pg, target)) && SummariesOk(FlipPg(w.pg, target)) by { TablesStored(FlipWorld(w, NewIds(s), oldIds, target)); }
    WholeAvailable(FlipPg(w.pg, target), s);
  }

  lemma FlipInvariant(w: World, newIds: seq<Id>, oldIds: seq<Id>, target: nat)
    requires TablesOk(w) && SyncOk(w) && w.inflight == Some(Inflight(target, newIds, true)) && Lists(oldIds, Below(w.pg, target))
    ensures TablesOk(FlipWorld(w, newIds, oldIds, target)) && SyncOk(FlipWorld(w, newIds, oldIds, target))
  {
    hide TablesOk, SyncOk, FlipWorld, Lists, Below;
    TablesKept(w, Flip(oldIds));
    SyncKept(w, Flip(oldIds));
  }

  lemma FlippedPg(w: World, newIds: seq<Id>, oldIds: seq<Id>, target: nat)
    ensures FlipWorld(w, newIds, oldIds, target).pg == FlipPg(w.pg, target) && FlipPg(w.pg, target).flipped
    ensures FlipPg(w.pg, target).active.chunk == target
  {
    hide FlipEvents, Enqueue;
  }

  lemma TablesStored(w: World)
    requires TablesOk(w)
    ensures ChunksOk(w.pg) && SummariesOk(w.pg)
  {
    hide ChunksOk, SummariesOk, AnchorsOk, PointersOk, IssuedOk, InflightOk, ReadingsOk;
  }

  lemma WholeAvailable(pg: Pg, s: Staging)
    requires ChunksOk(pg) && SummariesOk(pg) && pg.flipped && Runs.Whole(pg, s, pg.active.chunk)
    ensures Collection.AvailableChunks(pg) == Members(ChunkIds(s.chunks))
  {
    forall id ensures id in Collection.AvailableChunks(pg) <==> id in ChunkIds(s.chunks) {
      if id in ChunkIds(s.chunks) {
        var i :| 0 <= i < |s.chunks| && ChunkIds(s.chunks)[i] == id;
      }
      if id in Collection.AvailableChunks(pg) {
        assert id in NewIds(s);
      }
    }
  }

  /** Listing chunks and summaries one after the other lists both, because their ids are of different kinds. */
  lemma DisjointIds(pg: Pg, oldChunks: seq<Id>, oldSummaries: seq<Id>, t: int)
    requires ChunksOk(pg) && SummariesOk(pg)
    requires Lists(oldChunks, ChunksBelow(pg, t)) && Lists(oldSummaries, SummariesBelow(pg, t))
    ensures Lists(oldChunks + oldSummaries, Below(pg, t))
  {
    forall i, j | 0 <= i < |oldChunks| && 0 <= j < |oldSummaries| ensures oldChunks[i] != oldSummaries[j] {
      assert oldChunks[i] in oldChunks && oldSummaries[j] in oldSummaries;
    }
  }

  /** Documents taken of each event before the index stops answering. */
  function CallsOf(outbox: Outbox, rows: seq<nat>, outage: Outage): (calls: seq<nat>)
    ensures |calls| == |rows|
    ensures forall i | 0 <= i < |rows| && rows[i] in outbox && outage(rows[i]).None? :: calls[i] == Size(outbox[rows[i]].event)
  {
    seq(|rows|, i requires 0 <= i < |rows| =>
      if outage(rows[i]).Some? then outage(rows[i]).value
      else if rows[i] in outbox then Size(outbox[rows[i]].event) else 0)
  }

  lemma SelectedRows(outbox: Outbox, rows: seq<nat>)
    requires Lists(rows, Unpublished(outbox))
    ensures Selected(outbox, rows)
    ensures forall i | 0 <= i < |rows| :: rows[i] in outbox
  {
    forall k | k in rows ensures Open(outbox, k) { assert k in Unpublished(outbox); }
    assert forall i | 0 <= i < |rows| :: rows[i] in rows;
  }

  /** A drain, committed or not, is a sequence of delivery attempts. */
  lemma DrainedValid(w: World, rows: seq<nat>, calls: seq<nat>, committed: bool)
    requires TablesOk(w) && SyncOk(w) && |calls| == |rows| && Selected(w.outbox, rows)
    ensures var r := Drain(w.es, w.outbox, rows, calls, MAX_ATTEMPTS);
      var w' := w.(es := r.es, outbox := if committed then r.outbox else w.outbox);
      && TablesOk(w') && SyncOk(w')
      && |Unpublished(r.outbox)| + r.published == |Unpublished(w.outbox)|
      && (forall k: nat :: Open(r.outbox, k) ==> Open(w.outbox, k))
      && (forall k | k in w.outbox :: r.outbox[k].event == w.outbox[k].event)
      && ((forall i | 0 <= i < |rows| :: calls[i] >= Size(w.outbox[rows[i]].event)) && Removable(w.es, w.outbox) ==> r.failed == 0)
  {
    DrainCounts(w.es, w.outbox, rows, calls, MAX_ATTEMPTS);
    DrainFrame(w.es, w.outbox, rows, calls, MAX_ATTEMPTS);
    if (forall i | 0 <= i < |rows| :: calls[i] >= Size(w.outbox[rows[i]].event)) && Removable(w.es, w.outbox) {
      DrainHealthy(w.es, w.outbox, rows, calls, MAX_ATTEMPTS);
    }
    DrainTables(w, rows, calls, committed);
    DrainSync(w, rows, calls, committed, false);
    if w.exact { DrainSync(w, rows, calls, committed, true); }
    hide TablesOk, Sync, Traced, Drain, Removable, Selected;
  }

  function WithDrain(w: World, rows: seq<nat>, calls: seq<nat>, committed: bool): World
    requires |calls| == |rows| && forall k :: k in rows ==> k in w.outbox
  {
    var r := Drain(w.es, w.outbox, rows, calls, MAX_ATTEMPTS);
    w.(es := r.es, outbox := if committed then r.outbox else w.outbox)
  }

  /** What a drain reports and leaves, committed or not. */
  lemma DrainOutcome(w: World, rows: seq<nat>, calls: seq<nat>, survives: bool, outage: Outage)
    requires TablesOk(w) && SyncOk(w) && Lists(rows, Unpublished(w.outbox)) && calls == CallsOf(w.outbox, rows, outage)
    ensures forall k :: k in rows ==> k in w.outbox
    ensures var r, w' := Drain(w.es, w.outbox, rows, calls, MAX_ATTEMPTS), WithDrain(w, rows, calls, survives);
      && TablesOk(w') && SyncOk(w') && (forall k :: k in w'.outbox <==> k in w.outbox)
      && r.published + r.failed == |Unpublished(w.outbox)| && |Unpublished(r.outbox)| == r.failed
      && (forall k: nat :: Open(w'.outbox, k) ==> Open(w.outbox, k))
      && (Healthy(outage) && Removable(w.es, w.outbox) ==> r.failed == 0)
  {
    SelectedRows(w.outbox, rows);
    ListsCount(rows, Unpublished(w.outbox));
    hide TablesOk, SyncOk, Drain, Lists, Removable, Unpublished, Open;
    DrainedValid(w, rows, calls, survives);
  }

  lemma DrainTables(w: World, rows: seq<nat>, calls: seq<nat>, committed: bool)
    requires TablesOk(w) && |calls| == |rows| && Selected(w.outbox, rows)
    ensures TablesOk(WithDrain(w, rows, calls, committed))
  {
    hide ChunksOk, SummariesOk, AnchorsOk, PointersOk, InflightOk, ReadingsOk;
    SameRows(w, WithDrain(w, rows, calls, committed));
  }

  lemma {:induction false} DrainSync(w: World, rows: seq<nat>, calls: seq<nat>, committed: bool, exact: bool)
    requires TablesOk(w) && Sync(w, exact) && Sync(w, false) && Traced(w) && |calls| == |rows| && Selected(w.outbox, rows)
    ensures var w' := WithDrain(w, rows, calls, committed); Sync(w', exact) && Sync(w', false) && Traced(w')
    decreases |rows|
  {
    if rows != [] {
      var n := |rows| - 1;
      assert rows == rows[..n] + [rows[n]];
      assert rows[n] in rows && rows[n] !in rows[..n];
      hide Sync, Traced, TablesOk, Publish, Mark;
      DrainSync(w, rows[..n], calls[..n], committed, exact);
      DrainTables(w, rows[..n], calls[..n], committed);
      DrainFrame(w.es, w.outbox, rows[..n], calls[..n], MAX_ATTEMPTS);
      var q := Drain(w.es, w.outbox, rows[..n], calls[..n], MAX_ATTEMPTS);
      var v := WithDrain(w, rows[..n], calls[..n], committed);
      assert Open(v.outbox, rows[n]) && v.outbox[rows[n]].event == q.outbox[rows[n]].event;
      AttemptKeeps(v, rows[n], calls[n], committed, exact);
      AttemptKeeps(v, rows[n], calls[n], committed, false);
      AttemptTraced(v, rows[n], calls[n], committed);
    }
  }
}
