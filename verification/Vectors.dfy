/** Which vectors the documents of a row carry, row by row: a loss stays with its row and with the rows that reuse
    it, no document ever carries a wrong vector, and a full rebuild makes the vectors exact again. */
module Vectors {
  import opened Schema
  import opened Relay
  import opened Tables
  import opened Pipeline
  import opened Protocol
  import opened TableInvariant
  import opened IndexInvariant
  import opened Summarizer
  import opened Incremental
  import opened Reuse
  import Runs
  import Gc
  import Reconcile

  predicate Writes(e: Event, id: Id) {
    e.IndexDoc? && e.id == id
  }

  /** The outstanding writes of the id carry only these vectors. */
  ghost predicate Pending(outbox: Outbox, id: Id, allowed: set<Option<Vec>>) {
    forall k: nat :: Open(outbox, k) && Writes(outbox[k].event, id) ==> outbox[k].event.source.vec in allowed
  }

  /** The document of the id, now or once it is written, carries one of these vectors. */
  ghost predicate Carries(w: World, id: Id, allowed: set<Option<Vec>>) {
    id in w.issued && (id in w.es ==> w.es[id].vec in allowed) && Pending(w.outbox, id, allowed)
  }

  /** A document without a vector, or one that will be written without. */
  ghost predicate Lossy(w: World, id: Id) {
    Carries(w, id, {None})
  }

  /** The vector a live row should have; with `lost`, none at all is allowed for. */
  ghost function Own(pg: Pg, id: Id, lost: bool): set<Option<Vec>>
    requires Live(pg, id)
  {
    if lost then {None, Expected(pg, id).vec} else {Expected(pg, id).vec}
  }

  // ---------- staging ----------

  /** The n-th document of a staging, chunks first. */
  function IdFor(s: Staging, n: nat): Id
    requires Shaped(s) && n < |s.chunks| + |s.items|
  {
    if n < |s.chunks| then s.chunks[n].id else s.summaryIds[n - |s.chunks|]
  }

  function VectorFor(s: Staging, n: nat): Option<Vec>
    requires Shaped(s) && n < |s.chunks| + |s.items|
  {
    if n < |s.chunks| then s.vecs[n] else s.items[n - |s.chunks|].vec
  }

  function TextFor(s: Staging, n: nat): string
    requires Shaped(s) && n < |s.chunks| + |s.items|
  {
    if n < |s.chunks| then s.chunks[n].content else s.items[n - |s.chunks|].text
  }

  lemma IdStaged(s: Staging, n: nat)
    requires Shaped(s) && n < |s.chunks| + |s.items|
    ensures IdFor(s, n) in NewIds(s)
  {
    NewIdsMembers(s);
  }

  lemma StagedIndex(s: Staging, id: Id) returns (n: nat)
    requires Shaped(s) && id in NewIds(s)
    ensures n < |s.chunks| + |s.items| && IdFor(s, n) == id
  {
    n :| 0 <= n < |NewIds(s)| && NewIds(s)[n] == id;
    assert n < |s.chunks| ==> ChunkIds(s.chunks)[n] == s.chunks[n].id;
  }

  /** Each staged id has one event. */
  lemma SameStaged(w: World, s: Staging, n: nat, j: nat)
    requires IssuedOk(w) && StageOk(w, s) && n < |s.chunks| + |s.items| && j < |s.chunks| + |s.items| && IdFor(s, n) == IdFor(s, j)
    ensures j == n
  {
    FreshKeys(w, s);
    assert forall i | 0 <= i < |s.chunks| :: s.chunks[i].id.ChunkId? && s.chunks[i].id.order == i;
    assert forall i | 0 <= i < |s.summaryIds| :: s.summaryIds[i] in s.summaryIds && s.summaryIds[i].Uuid4?;
    hide StageOk;
  }

  lemma CarriesEmit(w: World, w': World, events: seq<Event>, id: Id, allowed: set<Option<Vec>>)
    requires (forall k :: k in w.outbox ==> k < w.next) && w'.outbox == Enqueue(w.outbox, w.next, w.clock, events)
    requires id in w'.issued && w'.es == w.es && (id in w.es ==> w.es[id].vec in allowed) && Pending(w.outbox, id, allowed)
    requires forall j | 0 <= j < |events| && Writes(events[j], id) :: events[j].source.vec in allowed
    ensures Carries(w', id, allowed)
  {
    EnqueueOpen(w.outbox, w.next, w.clock, events);
    hide Enqueue;
  }

  lemma StagedWrite(w: World, s: Staging, n: nat, j: nat)
    requires IssuedOk(w) && StageOk(w, s) && n < |s.chunks| + |s.items| && j < |StageEvents(w.pg, s)| && Writes(StageEvents(w.pg, s)[j], IdFor(s, n))
    ensures StageEvents(w.pg, s)[j].source.vec == VectorFor(s, n)
  {
    StageEventAt(w.pg, s, if j < |s.chunks| + |s.items| then j else n);
    hide StageEvents;
    SameStaged(w, s, n, j);
  }

  /** A staged row carries the vector it was staged with. */
  lemma CarriesStaged(w: World, s: Staging, n: nat)
    requires TablesOk(w) && Sync(w, false) && Enabled(w, Stage(s)) && n < |s.chunks| + |s.items|
    ensures Carries(Apply(w, Stage(s)), IdFor(s, n), {VectorFor(s, n)})
  {
    var w', events, id := StageWorld(w, s), StageEvents(w.pg, s), IdFor(s, n);
    IdStaged(s, n);
    StageNoDoc(w, s, id);
    StagedIds(w, s);
    assert w'.outbox == Enqueue(w.outbox, w.next, w.clock, events) && w'.es == w.es;
    assert Pending(w.outbox, id, {VectorFor(s, n)}) by { NotPending(w, id, {VectorFor(s, n)}); }
    forall j | 0 <= j < |events| && Writes(events[j], id) ensures events[j].source.vec == VectorFor(s, n) {
      StagedWrite(w, s, n, j);
    }
    assert forall k :: k in w.outbox ==> k < w.next;
    hide StageWorld, StageEvents, TablesOk, Sync, StageOk, Enabled, Apply, IdFor, VectorFor;
    CarriesEmit(w, w', events, id, {VectorFor(s, n)});
    assert Apply(w, Stage(s)) == w' by { StageApplies(w, s); }
  }

  lemma NotPending(w: World, id: Id, allowed: set<Option<Vec>>)
    requires Scoped(w) && id !in w.issued
    ensures Pending(w.outbox, id, allowed)
  {
    forall k: nat | Open(w.outbox, k) ensures !Writes(w.outbox[k].event, id) {
      assert !Mentions(w.outbox[k].event, id);
    }
  }

  /** A chunk staged without a vector has lost it. */
  lemma LossStaged(w: World, s: Staging, i: nat)
    requires TablesOk(w) && Sync(w, false) && Enabled(w, Stage(s)) && i < |s.chunks| && s.vecs[i] == None
    ensures Lossy(Apply(w, Stage(s)), s.chunks[i].id)
  {
    CarriesStaged(w, s, i);
  }

  // ---------- other steps ----------

  /** A repair that embeds the row again. */
  predicate Embeds(a: Action, id: Id) {
    a.Commit? && (id in a.c.missChunks || id in a.c.driftChunks || id in a.c.missSummaries)
  }

  /** Should the action embed the row again, then with one of these vectors. */
  predicate Allows(a: Action, id: Id, allowed: set<Option<Vec>>) {
    Embeds(a, id) && Live(a.pg, id) ==> Expected(a.pg, id).vec in allowed
  }

  lemma CarriesAttempt(w: World, k: nat, calls: nat, committed: bool, id: Id, allowed: set<Option<Vec>>)
    requires Carries(w, id, allowed) && Open(w.outbox, k)
    ensures Carries(AttemptWorld(w, k, calls, committed), id, allowed)
  {
    var e := w.outbox[k].event;
    PublishBetween(e, w.es, calls);
    var es' := Publish(e, w.es, calls).0;
    assert At(es', id) == At(w.es, id) || (Mentions(e, id) && At(es', id) == Effect(e, At(w.es, id)));
    hide Publish;
  }

  lemma CarriesStage(w: World, s: Staging, id: Id, allowed: set<Option<Vec>>)
    requires TablesOk(w) && Carries(w, id, allowed) && Enabled(w, Stage(s))
    ensures Carries(Apply(w, Stage(s)), id, allowed)
  {
    var w', events := StageWorld(w, s), StageEvents(w.pg, s);
    NewIdsMembers(s);
    StagedIds(w, s);
    FreshKeys(w, s);
    assert id !in NewIds(s) && w'.outbox == Enqueue(w.outbox, w.next, w.clock, events) && w'.es == w.es;
    hide StageWorld, StageEvents, TablesOk, StageOk, Enabled, Apply, NewIds;
    forall j | 0 <= j < |events| ensures !Writes(events[j], id) {
      StageEventAt(w.pg, s, j);
    }
    CarriesEmit(w, w', events, id, allowed);
    assert Apply(w, Stage(s)) == w' by { StageApplies(w, s); }
  }

  lemma CarriesCommit(w: World, pg0: Pg, seen: Index, c: Reconcile.Drift, id: Id, allowed: set<Option<Vec>>)
    requires TablesOk(w) && Carries(w, id, allowed) && Enabled(w, Commit(pg0, seen, c)) && Allows(Commit(pg0, seen, c), id, allowed)
    ensures Carries(Emit(w, Reconcile.RepairEvents(pg0, c)), id, allowed)
  {
    hide Reconcile.RepairEvents, Seen, TablesOk, Expected, Enqueue, Pending, Carries, Allows;
    assert Reconcile.Repairable(pg0, c);
    hide Reconcile.Repairable, Reconcile.Classifies;
    var events := Reconcile.RepairEvents(pg0, c);
    forall j | 0 <= j < |events| && Writes(events[j], id) ensures events[j].source.vec in allowed {
      RepairAllows(w, pg0, seen, c, j, id, allowed);
    }
    Runs.KeysBelow(w);
    CarriedBy(w, id, allowed);
    CarriesEmit(w, Emit(w, events), events, id, allowed);
  }

  lemma CarriedBy(w: World, id: Id, allowed: set<Option<Vec>>)
    requires Carries(w, id, allowed)
    ensures id in w.issued && (id in w.es ==> w.es[id].vec in allowed) && Pending(w.outbox, id, allowed)
  {
  }

  lemma RepairAllows(w: World, pg0: Pg, seen: Index, c: Reconcile.Drift, j: nat, id: Id, allowed: set<Option<Vec>>)
    requires TablesOk(w) && Enabled(w, Commit(pg0, seen, c)) && Allows(Commit(pg0, seen, c), id, allowed)
    requires j < |Reconcile.RepairEvents(pg0, c)| && Writes(Reconcile.RepairEvents(pg0, c)[j], id)
    ensures Reconcile.RepairEvents(pg0, c)[j].source.vec in allowed
  {
    RepairWrites(w, pg0, seen, c, j);
    hide TablesOk, Reconcile.RepairEvents, Expected, Seen, Reconcile.Classifies;
  }

  /** A repair writes only documents it found missing or of the wrong version, with the vectors of the rows it loaded. */
  lemma RepairWrites(w: World, pg0: Pg, seen: Index, c: Reconcile.Drift, j: nat)
    requires TablesOk(w) && Enabled(w, Commit(pg0, seen, c)) && j < |Reconcile.RepairEvents(pg0, c)| && Reconcile.RepairEvents(pg0, c)[j].IndexDoc?
    ensures var e := Reconcile.RepairEvents(pg0, c)[j];
      Embeds(Commit(pg0, seen, c), e.id) && Live(pg0, e.id) && e.source.vec == Expected(pg0, e.id).vec
  {
    LoadedEarlier(w, pg0);
    RepairKind(pg0, seen, c, j);
    RepairListed(pg0, c, j);
  }

  lemma RepairListed(pg: Pg, c: Reconcile.Drift, j: nat)
    requires Reconcile.Repairable(pg, c) && j < |Reconcile.RepairEvents(pg, c)| && Reconcile.RepairEvents(pg, c)[j].IndexDoc?
    ensures var id := Reconcile.RepairEvents(pg, c)[j].id; id in c.missChunks || id in c.driftChunks || id in c.missSummaries
  {
    var rebuild, sums := c.missChunks + c.driftChunks, Reconcile.NonEmpty(pg, c.missSummaries);
    if j < |rebuild| {
      assert rebuild[j] in rebuild;
    } else if j < |rebuild| + |sums| {
      assert sums[j - |rebuild|] in sums;
    }
  }

  lemma CarriesFlip(w: World, oldIds: seq<Id>, id: Id, allowed: set<Option<Vec>>)
    requires TablesOk(w) && Carries(w, id, allowed) && Enabled(w, Flip(oldIds))
    ensures Carries(Apply(w, Flip(oldIds)), id, allowed)
  {
    var events := FlipEvents(w.inflight.value.ids, oldIds);
    assert forall j | 0 <= j < |events| :: events[j].SetAvailable?;
    assert forall k :: k in w.outbox ==> k < w.next;
    var w' := Apply(w, Flip(oldIds));
    hide TablesOk, FlipEvents, FlipPg, Enqueue, Below;
    CarriesEmit(w, w', events, id, allowed);
  }

  lemma CarriesCollect(w: World, a: Action, id: Id, allowed: set<Option<Vec>>)
    requires TablesOk(w) && Carries(w, id, allowed) && a.Collect? && Enabled(w, a)
    ensures Carries(Apply(w, a), id, allowed)
  {
    var t, ids := Gc.Threshold(w.pg, a.retain), a.chunkIds + a.summaryIds;
    if t > 1 {
      DeleteEventsShape(ids);
      var events := Gc.DeleteEvents(ids);
      assert forall j | 0 <= j < |events| :: IsBatch(events[j], ids);
      assert forall k :: k in w.outbox ==> k < w.next;
      hide TablesOk, Gc.DeleteEvents, Gc.PurgePg, Enqueue;
      CarriesEmit(w, Apply(w, a), events, id, allowed);
    }
  }

  /** Whatever happens, unless from outside, the documents of a row go on carrying the same vectors, or those a
      repair gives them. */
  lemma CarriesStep(w: World, a: Action, id: Id, allowed: set<Option<Vec>>)
    requires TablesOk(w) && Carries(w, id, allowed) && Enabled(w, a) && !a.Drift? && Allows(a, id, allowed)
    ensures Carries(Apply(w, a), id, allowed)
  {
    hide TablesOk, Publish, Reconcile.RepairEvents, Allows;
    match a
    case Stage(s) => CarriesStage(w, s, id, allowed);
    case Attempt(k, calls, committed) => CarriesAttempt(w, k, calls, committed, id, allowed);
    case Flip(oldIds) => CarriesFlip(w, oldIds, id, allowed);
    case Collect(_, c, s) => CarriesCollect(w, a, id, allowed);
    case Commit(pg, seen, c) => CarriesCommit(w, pg, seen, c, id, allowed);
    case Foreign(es') => assert At(es', id) == At(w.es, id);
    case Barrier =>
    case Abort =>
    case Load =>
    case Look(_) =>
    case Prune(_) =>
    case Relocate(_, _) =>
  }

  // ---------- losses last ----------

  /** A lost vector stays lost through any run, until a repair embeds the row again. */
  lemma {:induction false} LossLasts(ws: seq<World>, actions: seq<Action>, j: nat, i: nat, id: Id)
    requires Run(ws, actions) && Orderly(ws, actions) && j <= i <= |actions| && Lossy(ws[j], id)
    requires forall n | j <= n < i :: !Embeds(actions[n], id)
    ensures Lossy(ws[i], id)
  {
    hide Apply, Enabled, Carries, Embeds;
    if j < i {
      LossLasts(ws, actions, j, i - 1, id);
      Runs.RunTables(ws, actions, i - 1);
      CarriesStep(ws[i - 1], actions[i - 1], id, {None});
    }
  }

  /** And an incremental ingest hands it on: an unchanged chunk of a version without vector is staged without. No
      reconcile notices (ReconcileConvergence.QuietClean). */
  lemma LossInherited(w: World, inp: Input, i: nat)
    requires InputOk(w, inp) && IsIncremental(w.pg, inp) && i < |inp.chunks| && inp.chunks[i].hash in PrevMap(w.pg, inp)
    requires Lossy(w, PrevMap(w.pg, inp)[inp.chunks[i].hash])
    ensures BuildVectors(w.pg, w.es, inp)[i] == None
  {
    MatchedAt(inp.chunks, PrevMap(w.pg, inp), i);
  }

  // ---------- vectors stay with their rows ----------

  /** A row that is there after a step, and whose id is not new, was there before with the same contents. */
  lemma RowStays(w: World, a: Action, id: Id)
    requires TablesOk(w) && Enabled(w, a) && id in w.issued && Live(Apply(w, a).pg, id)
    ensures Live(w.pg, id) && Expected(Apply(w, a).pg, id) == Expected(w.pg, id) && VersionOf(Apply(w, a).pg, id) == VersionOf(w.pg, id)
  {
    if Idle(a) {
      Runs.IdlePg(w, a);
    } else if a.Stage? {
      StagedRowStays(w, a.s, id);
    } else {
      ChangedRowStays(w, a, id);
    }
  }

  lemma ChangedRowStays(w: World, a: Action, id: Id)
    requires TablesOk(w) && Enabled(w, a) && (a.Flip? || a.Collect? || a.Relocate?) && Live(Apply(w, a).pg, id)
    ensures Live(w.pg, id) && Expected(Apply(w, a).pg, id) == Expected(w.pg, id) && VersionOf(Apply(w, a).pg, id) == VersionOf(w.pg, id)
  {
    hide FlipEvents, Gc.DeleteEvents, Gc.PurgePg, FlipPg, RelocatePg, Enqueue, Below;
    match a
    case Flip(_) => FlipRowStays(w.pg, w.inflight.value.target, id);
    case Relocate(summary, target) => RelocateRowStays(w.pg, summary, target, id);
    case Collect(retain, _, _) => if Gc.Threshold(w.pg, retain) > 1 { PurgeRowStays(w, Gc.Threshold(w.pg, retain), id); }
  }

  lemma FlipRowStays(pg: Pg, t: nat, id: Id)
    requires Live(FlipPg(pg, t), id)
    ensures Live(pg, id) && Expected(FlipPg(pg, t), id) == Expected(pg, id) && VersionOf(FlipPg(pg, t), id) == VersionOf(pg, id)
  {
  }

  lemma RelocateRowStays(pg: Pg, summary: Id, target: Id, id: Id)
    requires Live(RelocatePg(pg, summary, target), id)
    ensures var pg' := RelocatePg(pg, summary, target); Live(pg, id) && Expected(pg', id) == Expected(pg, id) && VersionOf(pg', id) == VersionOf(pg, id)
  {
  }

  lemma PurgeRowStays(w: World, t: int, id: Id)
    requires TablesOk(w) && Live(Gc.PurgePg(w.pg, t), id)
    ensures var pg' := Gc.PurgePg(w.pg, t); Live(w.pg, id) && Expected(pg', id) == Expected(w.pg, id) && VersionOf(pg', id) == VersionOf(w.pg, id)
  {
    IdKinds(w.pg);
    hide TablesOk, Gc.AtLeast;
  }

  lemma StagedRowStays(w: World, s: Staging, id: Id)
    requires TablesOk(w) && Enabled(w, Stage(s)) && id in w.issued && Live(Apply(w, Stage(s)).pg, id)
    ensures var pg' := Apply(w, Stage(s)).pg;
      Live(w.pg, id) && Expected(pg', id) == Expected(w.pg, id) && VersionOf(pg', id) == VersionOf(w.pg, id)
  {
    FreshKeys(w, s);
    StageFile(w.pg, s);
    assert id !in NewIds(s);
    hide StagePg, StageOk, ReadingsOk, ChunksOk, SummariesOk, AnchorsOk, IssuedOk, InflightOk, PointersOk;
    StageSameRow(w, s, id);
    StageKeptRow(w, s, id);
  }

  /** A repair that embeds a row still there embeds what the row holds. */
  lemma AllowsOwn(w: World, a: Action, id: Id, lost: bool)
    requires TablesOk(w) && Enabled(w, a) && Live(w.pg, id)
    ensures Allows(a, id, Own(w.pg, id, lost))
  {
    if Embeds(a, id) && Live(a.pg, id) {
      assert Loaded(w.readings, a.pg);
      LoadedEarlier(w, a.pg);
      hide TablesOk, EarlierTables, Enabled;
      EarlierExpected(w, a.pg, id);
    }
  }

  ghost predicate Right(w: World, id: Id, lost: bool) {
    Live(w.pg, id) ==> Carries(w, id, Own(w.pg, id, lost))
  }

  lemma RightStep(w: World, a: Action, id: Id, lost: bool)
    requires TablesOk(w) && Enabled(w, a) && !a.Drift? && id in w.issued && Right(w, id, lost)
    ensures Right(Apply(w, a), id, lost)
  {
    hide TablesOk, Enabled, Apply, Carries, Expected, Allows;
    if Live(Apply(w, a).pg, id) {
      RowStays(w, a, id);
      AllowsOwn(w, a, id, lost);
      CarriesStep(w, a, id, Own(w.pg, id, lost));
    }
  }

  lemma StagedExpected(w: World, s: Staging, n: nat)
    requires TablesOk(w) && Enabled(w, Stage(s)) && n < |s.chunks| + |s.items|
    ensures var pg' := Apply(w, Stage(s)).pg;
      Live(pg', IdFor(s, n)) && Expected(pg', IdFor(s, n)).vec == Some(Embed(TextFor(s, n))) && VersionOf(pg', IdFor(s, n)) == Target(w.pg)
  {
    Runs.WholeStaged(w, s);
    hide TablesOk, StageOk, StagePg, Runs.WholeAnchors;
    IdStaged(s, n);
    assert n >= |s.chunks| ==> s.summaryIds[n - |s.chunks|] in s.summaryIds;
    ChunksAreChunks(w, s, IdFor(s, n));
  }

  lemma ChunksAreChunks(w: World, s: Staging, id: Id)
    requires TablesOk(w) && Enabled(w, Stage(s))
    ensures id in Apply(w, Stage(s)).pg.chunks ==> id.ChunkId?
  {
    TablesKept(w, Stage(s));
    hide Apply, Enabled;
    IdKinds(Apply(w, Stage(s)).pg);
  }

  /** An id that a step leaves in the tables without having been handed out before was staged by it. */
  lemma StagedNow(w: World, a: Action, id: Id) returns (n: nat)
    requires TablesOk(w) && Enabled(w, a) && id !in w.issued && Live(Apply(w, a).pg, id)
    ensures a.Stage? && n < |a.s.chunks| + |a.s.items| && IdFor(a.s, n) == id
  {
    assert !Live(w.pg, id);
    hide ReadingsOk, ChunksOk, SummariesOk, AnchorsOk, IssuedOk, InflightOk, PointersOk, Expected;
    if a.Stage? {
      OnlyNewIds(w, a.s, id);
      n := StagedIndex(a.s, id);
    } else if Idle(a) {
      Runs.IdlePg(w, a);
    } else {
      ChangedRowStays(w, a, id);
    }
  }

  lemma OnlyNewIds(w: World, s: Staging, id: Id)
    requires IssuedOk(w) && Enabled(w, Stage(s)) && !Live(w.pg, id) && Live(Apply(w, Stage(s)).pg, id)
    ensures id in NewIds(s)
  {
    hide StageOk, StagePg;
    if id !in NewIds(s) { StageSameRow(w, s, id); }
  }

  lemma RightStaged(w: World, s: Staging, n: nat, lost: bool)
    requires TablesOk(w) && Sync(w, false) && Enabled(w, Stage(s)) && n < |s.chunks| + |s.items|
    requires VectorFor(s, n) == Some(Embed(TextFor(s, n))) || (lost && VectorFor(s, n) == None)
    ensures Right(Apply(w, Stage(s)), IdFor(s, n), lost)
  {
    hide TablesOk, Sync, Enabled, Apply, Expected, IdFor, VectorFor, TextFor;
    CarriesStaged(w, s, n);
    StagedExpected(w, s, n);
  }

  // ---------- no wrong vector ----------

  /** The staging is what ingest_file builds from some input, whatever it could read back. */
  ghost predicate Built(w: World, s: Staging) {
    exists inp: Input, sids: seq<Id>, aids: seq<Id> :: BuildsTo(w, s, inp, sids, aids)
  }

  ghost predicate BuildsTo(w: World, s: Staging, inp: Input, sids: seq<Id>, aids: seq<Id>) {
    InputOk(w, inp) && s == StagingOf(w, inp, sids, aids)
  }

  ghost predicate AllRight(w: World, lost: bool) {
    forall id :: Right(w, id, lost)
  }

  lemma OwnChunk(w: World, id: Id)
    requires AllRight(w, true) && id in w.pg.chunks && id in w.es
    ensures w.es[id].vec in {None, Some(Embed(w.pg.chunks[id].content))}
  {
    assert Right(w, id, true);
  }

  /** What a build reads back is the embedding of the new text, or nothing. */
  lemma BuiltChunk(w: World, inp: Input, i: nat)
    requires TablesOk(w) && AllRight(w, true) && InputOk(w, inp) && i < |inp.chunks|
    ensures BuildVectors(w.pg, w.es, inp)[i] in {None, Some(Embed(inp.chunks[i].content))}
  {
    hide AllRight;
    var c, prev := inp.chunks[i], PrevMap(w.pg, inp);
    if c.hash in prev {
      PrevSameText(w, inp, c);
      if prev[c.hash] in w.es { OwnChunk(w, prev[c.hash]); }
    }
    hide TablesOk, InputOk, PrevMap, IsIncremental;
    MatchedAt(inp.chunks, prev, i);
    hide Matched;
  }

  lemma BuiltReused(w: World, id: Id, m: map<Id, Id>)
    requires TablesOk(w) && AllRight(w, true) && id in w.pg.summaries && Reusable(w.pg.summaries[id], m)
    ensures ReusedItem(w.es, id, w.pg.summaries[id], m).vec in {None, Some(Embed(ReusedItem(w.es, id, w.pg.summaries[id], m).text))}
  {
    IdKinds(w.pg);
    assert Right(w, id, true);
  }

  lemma BuiltItem(w: World, inp: Input, it: SummaryItem)
    requires TablesOk(w) && AllRight(w, true) && InputOk(w, inp) && it in BuildItems(w.pg, w.es, inp)
    ensures it.vec in {None, Some(Embed(it.text))}
  {
    var m := Remap(w.pg, inp);
    hide TablesOk, AllRight, IsIncremental, FileSummaries, Eligible, Fresh, Reusable, ReusedItem;
    if IsIncremental(w.pg, inp) && it in ReusedItems(w.pg, w.es, inp.prevSummaries, m) {
      ReusedMembers(w.pg, w.es, inp.prevSummaries, m);
      var id :| id in inp.prevSummaries && Reusable(w.pg.summaries[id], m) && it == ReusedItem(w.es, id, w.pg.summaries[id], m);
      BuiltReused(w, id, m);
    }
  }

  lemma BuiltParts(w: World, s: Staging, inp: Input, sids: seq<Id>, aids: seq<Id>)
    requires BuildsTo(w, s, inp, sids, aids)
    ensures s.chunks == inp.chunks && s.vecs == BuildVectors(w.pg, w.es, inp) && s.items == BuildItems(w.pg, w.es, inp)
  {
    hide BuildVectors, BuildItems, InputOk;
  }

  ghost predicate OwnVector(s: Staging, n: nat)
    requires Shaped(s) && n < |s.chunks| + |s.items|
  {
    VectorFor(s, n) == None || VectorFor(s, n) == Some(Embed(TextFor(s, n)))
  }

  lemma BuiltVectorOf(w: World, s: Staging, inp: Input, sids: seq<Id>, aids: seq<Id>, n: nat)
    requires TablesOk(w) && AllRight(w, true) && BuildsTo(w, s, inp, sids, aids) && Shaped(s) && n < |s.chunks| + |s.items|
    ensures OwnVector(s, n)
  {
    hide TablesOk, AllRight, BuildVectors, BuildItems;
    BuiltParts(w, s, inp, sids, aids);
    hide BuildsTo, StagingOf;
    if n < |s.chunks| {
      BuiltChunk(w, inp, n);
    } else {
      assert s.items[n - |s.chunks|] in s.items;
      BuiltItem(w, inp, s.items[n - |s.chunks|]);
    }
  }

  lemma BuiltVector(w: World, s: Staging, n: nat)
    requires TablesOk(w) && AllRight(w, true) && Built(w, s) && Shaped(s) && n < |s.chunks| + |s.items|
    ensures OwnVector(s, n)
  {
    hide TablesOk, AllRight, BuildsTo, OwnVector, Shaped;
    var inp, sids, aids :| BuildsTo(w, s, inp, sids, aids);
    BuiltVectorOf(w, s, inp, sids, aids, n);
  }

  /** In a run whose stagings are all built by ingest_file, no document of a row carries a vector other than the
      embedding of the row's text: it has that one or none. */
  lemma {:induction false} NeverWrong(ws: seq<World>, actions: seq<Action>, i: nat)
    requires Run(ws, actions) && Orderly(ws, actions) && i <= |actions|
    requires forall n | 0 <= n < i && actions[n].Stage? :: Built(ws[n], actions[n].s)
    ensures AllRight(ws[i], true)
  {
    hide Apply, Enabled, Initial, Right, Built;
    if i == 0 {
      InitialRight(ws[0]);
    } else {
      NeverWrong(ws, actions, i - 1);
      Runs.RunSync(ws, actions, i - 1);
      forall id ensures Right(ws[i], id, true) {
        NeverWrongStep(ws[i - 1], actions[i - 1], id);
      }
    }
  }

  lemma InitialRight(w: World)
    requires Initial(w)
    ensures AllRight(w, true)
  {
  }

  lemma NeverWrongStep(w: World, a: Action, id: Id)
    requires TablesOk(w) && SyncOk(w) && Enabled(w, a) && Proper(w, a) && AllRight(w, true) && (a.Stage? ==> Built(w, a.s))
    ensures Right(Apply(w, a), id, true)
  {
    hide TablesOk, Sync, Enabled, Apply, Carries, Built;
    if id in w.issued {
      assert Right(w, id, true);
      RightStep(w, a, id, true);
    } else if Live(Apply(w, a).pg, id) {
      var n := StagedNow(w, a, id);
      assert Shaped(a.s) by { StageShaped(w, a.s); }
      BuiltVector(w, a.s, n);
      RightStaged(w, a.s, n, true);
    }
  }

  lemma StageShaped(w: World, s: Staging)
    requires Enabled(w, Stage(s))
    ensures Shaped(s)
  {
  }

  // ---------- a full rebuild restores exactness ----------

  /** A staging built by a full rebuild. */
  ghost predicate RebuiltFrom(w: World, s: Staging) {
    exists inp: Input, sids: seq<Id>, aids: seq<Id> :: BuildsTo(w, s, inp, sids, aids) && !IsIncremental(w.pg, inp)
  }

  /** The rows of version v and later carry their embeddings. */
  ghost predicate RightFrom(w: World, v: nat) {
    forall id | Live(w.pg, id) && VersionOf(w.pg, id) >= v :: Right(w, id, false)
  }

  lemma OldVersion(w: World, id: Id)
    requires TablesOk(w) && Live(w.pg, id)
    ensures VersionOf(w.pg, id) < Target(w.pg)
  {
    hide AnchorsOk, PointersOk, InflightOk, IssuedOk, ReadingsOk;
  }

  lemma RebuiltExact(w: World, s: Staging)
    requires RebuiltFrom(w, s)
    ensures ExactVectors(s)
  {
    var inp, sids, aids :| BuildsTo(w, s, inp, sids, aids) && !IsIncremental(w.pg, inp);
    hide InputOk, IsIncremental, BuildVectors, BuildItems;
    FullExact(w, inp);
    ExactParts(w, inp, sids, aids);
  }

  /** Later targets are larger. */
  lemma Later(ws: seq<World>, actions: seq<Action>, j: nat, i: nat)
    requires Run(ws, actions) && j < i <= |actions| && actions[j].Stage?
    ensures Target(ws[i].pg) > Target(ws[j].pg)
  {
    hide Apply, Enabled, Initial, TablesOk, Latest, Runs.Whole;
    Runs.RunTables(ws, actions, j);
    assert actions[j] == Stage(actions[j].s);
    Runs.WholeStaged(ws[j], actions[j].s);
    Runs.Monotone(ws, actions, j + 1, i);
  }

  /** An ingest that finds exact documents stages exact vectors. */
  lemma RestoredExact(w: World, s: Staging, v: nat)
    requires TablesOk(w) && BuiltReady(w, s) && Target(w.pg) > v && RightFrom(w, v)
    ensures ExactVectors(s)
  {
    hide TablesOk, BuiltReady, Expected, ExactVectors, Latest;
    assert PrevExact(w) by {
      forall p | Live(w.pg, p) && VersionOf(w.pg, p) == Target(w.pg) - 1 && p in w.es ensures w.es[p].vec == Expected(w.pg, p).vec {
        assert Right(w, p, false);
      }
    }
    BuiltExact(w, s);
  }

  lemma ExactFor(s: Staging, n: nat)
    requires ExactVectors(s) && Shaped(s) && n < |s.chunks| + |s.items|
    ensures VectorFor(s, n) == Some(Embed(TextFor(s, n)))
  {
  }

  lemma RestoredStep(w: World, a: Action, v: nat, id: Id)
    requires TablesOk(w) && SyncOk(w) && Enabled(w, a) && Proper(w, a) && RightFrom(w, v)
    requires a.Stage? ==> ExactVectors(a.s)
    requires Live(Apply(w, a).pg, id) && VersionOf(Apply(w, a).pg, id) >= v
    ensures Right(Apply(w, a), id, false)
  {
    hide TablesOk, Sync, Enabled, Apply, Right, ExactVectors;
    if id in w.issued {
      RowStays(w, a, id);
      RightStep(w, a, id, false);
    } else {
      var n := StagedNow(w, a, id);
      StageShaped(w, a.s);
      ExactFor(a.s, n);
      RightStaged(w, a.s, n, false);
    }
  }

  lemma RestoredNow(w: World, s: Staging)
    requires TablesOk(w) && SyncOk(w) && Enabled(w, Stage(s)) && ExactVectors(s)
    ensures RightFrom(Apply(w, Stage(s)), Target(w.pg))
  {
    var w' := Apply(w, Stage(s));
    forall id | Live(w.pg, id) ensures VersionOf(w.pg, id) < Target(w.pg) { OldVersion(w, id); }
    hide TablesOk, SyncOk, Enabled, Apply, Right, ExactVectors, Target, Latest;
    forall id | Live(w'.pg, id) && VersionOf(w'.pg, id) >= Target(w.pg) ensures Right(w', id, false) {
      if id in w.issued { RowStays(w, Stage(s), id); }
      RestoredStep(w, Stage(s), Target(w.pg), id);
    }
  }

  lemma RestoredNext(w: World, a: Action, v: nat)
    requires TablesOk(w) && SyncOk(w) && Enabled(w, a) && Proper(w, a) && RightFrom(w, v) && Target(w.pg) > v
    requires a.Stage? ==> BuiltReady(w, a.s)
    ensures RightFrom(Apply(w, a), v)
  {
    hide TablesOk, SyncOk, Enabled, Apply, Right, ExactVectors, BuiltReady, Target, Proper;
    if a.Stage? { RestoredExact(w, a.s, v); }
    hide RightFrom;
    forall id | Live(Apply(w, a).pg, id) && VersionOf(Apply(w, a).pg, id) >= v ensures Right(Apply(w, a), id, false) {
      RestoredStep(w, a, v, id);
    }
    assert RightFrom(Apply(w, a), v) by { RightFromAll(Apply(w, a), v); }
  }

  lemma RightFromAll(w: World, v: nat)
    requires forall id | Live(w.pg, id) && VersionOf(w.pg, id) >= v :: Right(w, id, false)
    ensures RightFrom(w, v)
  {
  }

  /** From a full rebuild on, as long as later ingests find what they read back, the rows of the rebuilt version and
      of all later ones carry their embeddings, whatever was lost before. */
  lemma {:induction false} RebuildRestores(ws: seq<World>, actions: seq<Action>, j: nat, i: nat)
    requires Run(ws, actions) && Orderly(ws, actions) && j < i <= |actions|
    requires actions[j].Stage? && RebuiltFrom(ws[j], actions[j].s)
    requires forall n | j < n < i && actions[n].Stage? :: BuiltReady(ws[n], actions[n].s)
    ensures RightFrom(ws[i], Target(ws[j].pg))
  {
    hide Apply, Enabled, Initial, TablesOk, SyncOk, RightFrom, BuiltReady, RebuiltFrom, Target, Proper;
    Runs.RunSync(ws, actions, i - 1);
    if i - 1 == j {
      RebuiltExact(ws[j], actions[j].s);
      assert actions[j] == Stage(actions[j].s);
      RestoredNow(ws[j], actions[j].s);
    } else {
      RebuildRestores(ws, actions, j, i - 1);
      Later(ws, actions, j, i - 1);
      RestoredNext(ws[i - 1], actions[i - 1], Target(ws[j].pg));
    }
  }

  /** So once nothing is outstanding, the index holds the embedding of every such row's text. */
  lemma RestoredShown(ws: seq<World>, actions: seq<Action>, j: nat, i: nat, id: Id)
    requires Run(ws, actions) && Orderly(ws, actions) && j < i <= |actions| && Unpublished(ws[i].outbox) == {}
    requires actions[j].Stage? && RebuiltFrom(ws[j], actions[j].s)
    requires forall n | j < n < i && actions[n].Stage? :: BuiltReady(ws[n], actions[n].s)
    requires Live(ws[i].pg, id) && VersionOf(ws[i].pg, id) >= Target(ws[j].pg)
    ensures id in ws[i].es && ws[i].es[id].vec == Some(Embed(ws[i].es[id].text))
  {
    RebuildRestores(ws, actions, j, i);
    hide Run, Orderly, Target, RebuiltFrom, BuiltReady;
    assert Right(ws[i], id, false);
    CarriedShown(ws, actions, i, id);
  }

  lemma CarriedShown(ws: seq<World>, actions: seq<Action>, i: nat, id: Id)
    requires Run(ws, actions) && Orderly(ws, actions) && i <= |actions| && Unpublished(ws[i].outbox) == {}
    requires Live(ws[i].pg, id) && Carries(ws[i], id, Own(ws[i].pg, id, false))
    ensures id in ws[i].es && ws[i].es[id].vec == Some(Embed(ws[i].es[id].text))
  {
    Runs.Agreement(ws, actions, i);
    hide Run, Orderly;
    assert Safe(ws[i].pg, ws[i].exact, id, At(ws[i].es, id)) && Good(ws[i].pg, id, At(ws[i].es, id));
  }
}
