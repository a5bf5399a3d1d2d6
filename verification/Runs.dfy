/** What holds in every state of every run of the publish protocol. */
module Runs {
  import opened Schema
  import opened Relay
  import opened Tables
  import opened Pipeline
  import opened Protocol
  import opened TableInvariant
  import opened IndexInvariant
  import Gc
  import Reconcile

  // ---------- the invariants, over whole runs ----------

  /** The tables are in order in every reachable state, even if outsiders rewrite the index at will. */
  lemma {:induction false} RunTables(ws: seq<World>, actions: seq<Action>, i: nat)
    requires Run(ws, actions) && i <= |actions|
    ensures TablesOk(ws[i])
  {
    if i > 0 {
      RunTables(ws, actions, i - 1);
      TablesKept(ws[i - 1], actions[i - 1]);
    }
  }

  lemma {:induction false} RunSync(ws: seq<World>, actions: seq<Action>, i: nat)
    requires Run(ws, actions) && i <= |actions| && Orderly(ws, actions)
    ensures TablesOk(ws[i]) && SyncOk(ws[i])
  {
    hide Apply, Enabled, Initial, TablesOk, SyncOk;
    RunTables(ws, actions, i);
    if i > 0 {
      RunSync(ws, actions, i - 1);
      SyncKept(ws[i - 1], actions[i - 1]);
    } else {
      InitialSync(ws[0]);
    }
  }

  lemma InitialSync(w: World)
    requires Initial(w)
    ensures SyncOk(w)
  {
    assert Traced(w);
    forall exact ensures Sync(w, exact) {
      forall id ensures Safe(w.pg, exact, id, At(w.es, id)) && Good(w.pg, id, At(w.es, id)) { }
    }
  }

  // ---------- the tables over time ----------

  lemma IssuedGrows(w: World, a: Action)
    requires Enabled(w, a)
    ensures w.issued <= Apply(w, a).issued
  {
    match a
    case Stage(_) =>
    case Collect(_, _, _) =>
    case _ =>
  }

  /** Pointers and target versions never decrease, a published file stays published, ids stay issued. */
  lemma {:induction false} Monotone(ws: seq<World>, actions: seq<Action>, i: nat, j: nat)
    requires Run(ws, actions) && i <= j <= |actions|
    ensures ws[j].pg.active.doc >= ws[i].pg.active.doc && Target(ws[j].pg) >= Target(ws[i].pg)
    ensures ws[i].pg.flipped ==> ws[j].pg.flipped
    ensures ws[i].issued <= ws[j].issued
  {
    hide TablesOk, Apply, Enabled, Initial, Latest;
    if i < j {
      Monotone(ws, actions, i, j - 1);
      RunTables(ws, actions, j - 1);
      TablesKept(ws[j - 1], actions[j - 1]);
      IssuedGrows(ws[j - 1], actions[j - 1]);
    }
  }

  /** No id is ever staged twice, although collection deletes rows and version rows in between. */
  lemma StagedOnce(ws: seq<World>, actions: seq<Action>, i: nat, j: nat, id: Id)
    requires Run(ws, actions) && i < j < |actions| && actions[i].Stage? && actions[j].Stage?
    requires id in NewIds(actions[i].s)
    ensures id !in NewIds(actions[j].s)
  {
    RunTables(ws, actions, j);
    Monotone(ws, actions, i + 1, j);
    assert id in ws[i + 1].issued;
    FreshKeys(ws[j], actions[j].s);
  }

  /** The rows of a version are exactly those one staging inserted, with the contents it gave them. */
  ghost predicate Whole(pg: Pg, s: Staging, v: nat) {
    && WholeIds(pg, s, v) && WholeRows(pg, s, v) && (forall id :: id in s.summaryIds ==> id.Uuid4?)
    && WholeSummaries(pg, s, v) && WholeAnchors(pg, s, v)
  }

  ghost predicate WholeIds(pg: Pg, s: Staging, v: nat) {
    forall id :: id in NewIds(s) <==> Live(pg, id) && VersionOf(pg, id) == v
  }

  ghost predicate WholeRows(pg: Pg, s: Staging, v: nat) {
    forall i | 0 <= i < |s.chunks| ::
      && s.chunks[i].id in pg.chunks
      && pg.chunks[s.chunks[i].id].(available := false) == NewChunkRow(s.chunks[i], v)
  }

  ghost predicate WholeSummaries(pg: Pg, s: Staging, v: nat) {
    |s.summaryIds| == |s.items| && forall i | 0 <= i < |s.items| ::
      && s.summaryIds[i] in pg.summaries
      && pg.summaries[s.summaryIds[i]] == SummaryRow(v, s.items[i].text, s.items[i].sources, s.coverage, s.items[i].heading)
  }

  /** An anchor without what relocation rewrites. */
  function Fixed(a: AnchorRow): AnchorRow {
    a.(target := None, validity := Valid)
  }

  /** The anchors of the version are those staged, up to relocation. */
  ghost predicate AnchorsOf(anchors: map<Id, AnchorRow>, s: Staging, v: nat) {
    && |s.anchorIds| == |s.items| == |s.summaryIds|
    && (forall a :: a in s.anchorIds <==> a in anchors && anchors[a].version == v)
    && forall i | 0 <= i < |s.items| ::
         s.anchorIds[i] in anchors && Fixed(anchors[s.anchorIds[i]]) == Fixed(NewAnchorRow(s.chunks, s.items[i], s.summaryIds[i], v))
  }

  ghost predicate WholeAnchors(pg: Pg, s: Staging, v: nat) {
    AnchorsOf(pg.anchors, s, v)
  }

  lemma WholeStaged(w: World, s: Staging)
    requires TablesOk(w) && Enabled(w, Stage(s))
    ensures var w' := Apply(w, Stage(s));
      Whole(w'.pg, s, Target(w.pg)) && Latest(w'.pg.versions) == Target(w.pg)
  {
    ChunksStaged(w, s);
    SummariesStaged(w, s);
    AnchorsStaged(w, s);
    assert Apply(w, Stage(s)).pg == StagePg(w.pg, s);
    hide WholeIds, WholeRows, WholeSummaries, WholeAnchors, TablesOk, StagePg, StageWorld, StageOk, Latest;
  }

  lemma ChunksStaged(w: World, s: Staging)
    requires TablesOk(w) && w.inflight.None? && StageOk(w, s)
    ensures WholeIds(StagePg(w.pg, s), s, Target(w.pg)) && WholeRows(StagePg(w.pg, s), s, Target(w.pg))
    ensures Latest(StagePg(w.pg, s).versions) == Target(w.pg) && forall id :: id in s.summaryIds ==> id.Uuid4?
  {
    hide StageOk, PointersOk, ChunksOk, SummariesOk, AnchorsOk, IssuedOk, InflightOk, ReadingsOk, StagePg, StageWorld, Latest;
    StageInflight(w, s);
    StageKeeps(w, s);
    FreshKeys(w, s);
    RowsStaged(w, s);
  }

  lemma RowsStaged(w: World, s: Staging)
    requires IssuedOk(w) && StageOk(w, s)
    ensures WholeRows(StagePg(w.pg, s), s, Target(w.pg))
  {
    StagedChunks(w, s);
    hide StagePg, StageOk, IssuedOk, Target;
    forall i | 0 <= i < |s.chunks| ensures NewChunkRow(s.chunks[i], Target(w.pg)).(available := false) == NewChunkRow(s.chunks[i], Target(w.pg)) { }
  }

  lemma SummariesStaged(w: World, s: Staging)
    requires TablesOk(w) && StageOk(w, s)
    ensures WholeSummaries(StagePg(w.pg, s), s, Target(w.pg))
  {
    StagedSummaries(w, s);
    hide StagePg, StageOk, TablesOk, Latest;
    forall i | 0 <= i < |s.items| ensures SummaryRows(s.items, s.coverage, Target(w.pg))[i]
      == SummaryRow(Target(w.pg), s.items[i].text, s.items[i].sources, s.coverage, s.items[i].heading)
    {
      SummaryRowAt(s, Target(w.pg), i);
    }
  }

  /** Anchors are of the versions of their summaries, which are present. */
  lemma AnchorVersions(pg: Pg)
    requires SummariesOk(pg) && AnchorsOk(pg)
    ensures forall a | a in pg.anchors :: pg.anchors[a].version in pg.versions && pg.anchors[a].summary in pg.summaries
    ensures forall a | a in pg.anchors :: pg.anchors[a].version == pg.summaries[pg.anchors[a].summary].version
  {
    forall a | a in pg.anchors
      ensures pg.anchors[a].summary in pg.summaries && pg.anchors[a].version == pg.summaries[pg.anchors[a].summary].version
      ensures pg.anchors[a].version in pg.versions
    {
      assert AnchorOk(pg, pg.anchors[a]);
    }
  }

  /** What a staging inserts into the table of anchors. */
  ghost predicate AnchorsInserted(before: map<Id, AnchorRow>, after: map<Id, AnchorRow>, s: Staging, t: nat) {
    && |s.anchorIds| == |s.items| == |s.summaryIds|
    && (forall i | 0 <= i < |s.items| :: s.anchorIds[i] in after && after[s.anchorIds[i]] == NewAnchorRow(s.chunks, s.items[i], s.summaryIds[i], t))
    && (forall id :: id in after <==> id in before || id in s.anchorIds)
    && (forall id | id in before :: after[id] == before[id] && before[id].version != t && id !in s.anchorIds)
  }

  lemma StageInserts(w: World, s: Staging)
    requires TablesOk(w) && StageOk(w, s)
    ensures AnchorsInserted(w.pg.anchors, StagePg(w.pg, s).anchors, s, Target(w.pg))
  {
    hide StageOk, PointersOk, ChunksOk, SummariesOk, AnchorsOk, IssuedOk, InflightOk, ReadingsOk, StagePg, NewAnchorRow, Target;
    FreshAnchors(w, s);
    AnchorVersions(w.pg);
    StagedAnchors(w, s);
  }

  lemma FreshAnchors(w: World, s: Staging)
    requires TablesOk(w) && StageOk(w, s)
    ensures Target(w.pg) !in w.pg.versions && (forall id :: id in s.anchorIds ==> id !in w.pg.anchors) && |s.anchorIds| == |s.items| == |s.summaryIds|
  {
    hide PointersOk, ChunksOk, SummariesOk, AnchorsOk, InflightOk, ReadingsOk, StorableChunks, StorableItems, FreshUuids;
    FreshKeys(w, s);
    assert forall a :: a in w.pg.anchors ==> a in w.issued;
  }

  lemma AnchorsStaged(w: World, s: Staging)
    requires TablesOk(w) && StageOk(w, s)
    ensures WholeAnchors(StagePg(w.pg, s), s, Target(w.pg))
  {
    StageInserts(w, s);
    hide TablesOk, StageOk, StagePg, Target, AnchorsInserted, AnchorsOf;
    InsertedOwn(w.pg.anchors, StagePg(w.pg, s).anchors, s, Target(w.pg));
  }

  lemma InsertedOwn(before: map<Id, AnchorRow>, after: map<Id, AnchorRow>, s: Staging, t: nat)
    requires AnchorsInserted(before, after, s, t)
    ensures AnchorsOf(after, s, t)
  {
    hide NewAnchorRow;
    forall a ensures a in s.anchorIds <==> a in after && after[a].version == t {
      if a in s.anchorIds {
        var i :| 0 <= i < |s.anchorIds| && s.anchorIds[i] == a;
        NewAnchorVersion(s, i, t);
      }
    }
  }

  lemma AnchorsLater(w: World, s2: Staging, s: Staging, v: nat)
    requires TablesOk(w) && StageOk(w, s2) && WholeAnchors(w.pg, s, v) && v in w.pg.versions
    ensures WholeAnchors(StagePg(w.pg, s2), s, v)
  {
    StageInserts(w, s2);
    FreshAnchors(w, s2);
    hide TablesOk, StageOk, StagePg, Target, AnchorsInserted, AnchorsOf;
    InsertedOther(w.pg.anchors, StagePg(w.pg, s2).anchors, s2, Target(w.pg), s, v);
  }

  lemma InsertedOther(before: map<Id, AnchorRow>, after: map<Id, AnchorRow>, s2: Staging, t: nat, s: Staging, v: nat)
    requires AnchorsInserted(before, after, s2, t) && AnchorsOf(before, s, v) && v != t
    ensures AnchorsOf(after, s, v)
  {
    hide NewAnchorRow, Fixed;
    forall a ensures a in s.anchorIds <==> a in after && after[a].version == v {
      if a in s2.anchorIds {
        var i :| 0 <= i < |s2.anchorIds| && s2.anchorIds[i] == a;
        NewAnchorVersion(s2, i, t);
      }
    }
    forall i | 0 <= i < |s.items| ensures s.anchorIds[i] in before && after[s.anchorIds[i]] == before[s.anchorIds[i]] { }
  }

  lemma NewAnchorVersion(s: Staging, i: nat, t: nat)
    requires i < |s.items| == |s.summaryIds|
    ensures NewAnchorRow(s.chunks, s.items[i], s.summaryIds[i], t).version == t
  {
  }

  lemma SummariesLater(w: World, s2: Staging, s: Staging, v: nat)
    requires TablesOk(w) && StageOk(w, s2) && WholeSummaries(w.pg, s, v)
    ensures WholeSummaries(StagePg(w.pg, s2), s, v)
  {
    StagedSummaries(w, s2);
    hide StagePg, StageOk, TablesOk;
  }

  lemma AnchorsPurged(pg: Pg, t: int, s: Staging, v: nat)
    requires WholeAnchors(pg, s, v) && v >= t && SummariesOk(pg) && AnchorsOk(pg)
    ensures WholeAnchors(Gc.PurgePg(pg, t), s, v)
  {
    AnchorVersions(pg);
    PurgedAnchors(pg, t);
    hide SummariesOk, AnchorsOk, Gc.PurgePg, NewAnchorRow, Fixed;
    var pg' := Gc.PurgePg(pg, t);
    forall i | 0 <= i < |s.items| ensures s.anchorIds[i] in pg.anchors && pg.anchors[s.anchorIds[i]].version == v {
      assert s.anchorIds[i] in s.anchorIds;
    }
  }

  lemma PurgedAnchors(pg: Pg, t: int)
    requires forall a | a in pg.anchors :: pg.anchors[a].summary in pg.summaries
    requires forall a | a in pg.anchors :: pg.anchors[a].version == pg.summaries[pg.anchors[a].summary].version
    ensures var anchors' := Gc.PurgePg(pg, t).anchors;
      && (forall a :: a in anchors' <==> a in pg.anchors && pg.anchors[a].version >= t)
      && (forall a | a in anchors' :: anchors'[a] == pg.anchors[a])
  {
    hide Gc.AtLeast;
  }

  lemma SummariesPurged(pg: Pg, t: int, s: Staging, v: nat)
    requires WholeSummaries(pg, s, v) && v >= t
    ensures WholeSummaries(Gc.PurgePg(pg, t), s, v)
  {
    hide Gc.AtLeast;
  }

  lemma WholeStep(w: World, a: Action, s: Staging, v: nat)
    requires TablesOk(w) && Enabled(w, a) && Whole(w.pg, s, v) && v in w.pg.versions && v in Apply(w, a).pg.versions
    ensures Whole(Apply(w, a).pg, s, v)
  {
    hide Whole, TablesOk;
    if Idle(a) {
      IdlePg(w, a);
    } else {
      WholeMoves(w, a, s, v);
    }
  }

  lemma IdlePg(w: World, a: Action)
    requires Enabled(w, a) && Idle(a)
    ensures Apply(w, a).pg == w.pg
  {
    hide Reconcile.RepairEvents, Reconcile.Classifies, Publish;
  }

  lemma WholeMoves(w: World, a: Action, s: Staging, v: nat)
    requires TablesOk(w) && Enabled(w, a) && Whole(w.pg, s, v) && v in w.pg.versions && v in Apply(w, a).pg.versions && !Idle(a)
    ensures Whole(Apply(w, a).pg, s, v)
  {
    hide Whole, ReadingsOk, ChunksOk, SummariesOk, AnchorsOk, IssuedOk, InflightOk, StageOk, StagePg, StageEvents, Gc.DeleteEvents, Gc.AtLeast;
    match a
    case Stage(s2) => WholeStage(w, s2, s, v);
    case Flip(_) => WholeFlip(w.pg, w.inflight.value.target, s, v);
    case Collect(retain, _, _) =>
      if Gc.Threshold(w.pg, retain) > 1 {
        AtLeastMembers(w.pg.versions, Gc.Threshold(w.pg, retain));
        WholePurge(w.pg, Gc.Threshold(w.pg, retain), s, v);
      }
    case Relocate(summary, target) => WholeRelocated(w.pg, summary, target, s, v);
  }

  lemma WholeRelocated(pg: Pg, summary: Id, target: Id, s: Staging, v: nat)
    requires Whole(pg, s, v)
    ensures Whole(RelocatePg(pg, summary, target), s, v)
  {
    hide NewAnchorRow;
  }

  lemma NewIdsFresh(w: World, s: Staging, id: Id)
    requires IssuedOk(w) && StageOk(w, s) && id in NewIds(s)
    ensures !Live(w.pg, id)
  {
    FreshKeys(w, s);
    assert id in ChunkIds(s.chunks) || id in s.summaryIds;
  }

  lemma WholeStageId(w: World, s2: Staging, v: nat, id: Id)
    requires TablesOk(w) && StageOk(w, s2) && v in w.pg.versions
    ensures Live(StagePg(w.pg, s2), id) && VersionOf(StagePg(w.pg, s2), id) == v <==> Live(w.pg, id) && VersionOf(w.pg, id) == v
  {
    hide StageOk, StagePg, Latest, ChunksOk, SummariesOk, AnchorsOk, IssuedOk, NewIds;
    if id in NewIds(s2) {
      NewIdsFresh(w, s2, id);
      StageInflight(w, s2);
      FreshKeys(w, s2);
    } else {
      StageSameRow(w, s2, id);
    }
  }

  lemma WholeStageIds(w: World, s2: Staging, s: Staging, v: nat)
    requires TablesOk(w) && StageOk(w, s2) && v in w.pg.versions && WholeIds(w.pg, s, v)
    ensures WholeIds(StagePg(w.pg, s2), s, v)
  {
    var pg' := StagePg(w.pg, s2);
    hide StageOk, StagePg, TablesOk, NewIds;
    forall id ensures id in NewIds(s) <==> Live(pg', id) && VersionOf(pg', id) == v {
      WholeStageId(w, s2, v, id);
    }
  }

  lemma WholeStage(w: World, s2: Staging, s: Staging, v: nat)
    requires TablesOk(w) && w.inflight.None? && StageOk(w, s2) && Whole(w.pg, s, v) && v in w.pg.versions
    ensures Whole(StagePg(w.pg, s2), s, v)
  {
    WholeStageRows(w, s2, s, v);
    SummariesLater(w, s2, s, v);
    AnchorsLater(w, s2, s, v);
    hide WholeSummaries, WholeAnchors, WholeIds, WholeRows, TablesOk, StageOk, StagePg;
    assert WholeIds(StagePg(w.pg, s2), s, v) by {
      WholeStageIds(w, s2, s, v);
    }
  }

  lemma WholeStageRows(w: World, s2: Staging, s: Staging, v: nat)
    requires IssuedOk(w) && StageOk(w, s2) && WholeRows(w.pg, s, v)
    ensures WholeRows(StagePg(w.pg, s2), s, v)
  {
    StagedChunks(w, s2);
    hide StagePg, StageOk;
    forall i | 0 <= i < |s.chunks|
      ensures s.chunks[i].id in StagePg(w.pg, s2).chunks && StagePg(w.pg, s2).chunks[s.chunks[i].id] == w.pg.chunks[s.chunks[i].id]
    {
      assert s.chunks[i].id in w.pg.chunks;
    }
  }

  lemma WholeFlip(pg: Pg, t: nat, s: Staging, v: nat)
    requires Whole(pg, s, v)
    ensures Whole(FlipPg(pg, t), s, v)
  {
    hide NewAnchorRow;
    forall id { FlipFrame(pg, t, false, id); }
  }

  lemma WholePurge(pg: Pg, t: int, s: Staging, v: nat)
    requires Whole(pg, s, v) && v >= t && ChunksOk(pg) && SummariesOk(pg) && AnchorsOk(pg)
    ensures Whole(Gc.PurgePg(pg, t), s, v)
  {
    AnchorsPurged(pg, t, s, v);
    SummariesPurged(pg, t, s, v);
    hide WholeSummaries, WholeAnchors, AnchorsOk;
    forall id ensures id in NewIds(s) <==> Live(Gc.PurgePg(pg, t), id) && VersionOf(Gc.PurgePg(pg, t), id) == v {
      PurgeFrame(pg, t, id);
    }
  }

  /** As long as collection keeps a version, it keeps it whole. */
  lemma {:induction false} WholeVersion(ws: seq<World>, actions: seq<Action>, j: nat, i: nat)
    requires Run(ws, actions) && j < i <= |actions| && actions[j].Stage? && Target(ws[j].pg) in ws[i].pg.versions
    ensures Whole(ws[i].pg, actions[j].s, Target(ws[j].pg))
  {
    hide TablesOk, Whole, Latest, Enabled, Apply, Target;
    RunTables(ws, actions, i - 1);
    RunTables(ws, actions, j);
    assert actions[j] == Stage(actions[j].s);
    WholeStaged(ws[j], actions[j].s);
    if j < i - 1 {
      VersionsFade(ws, actions, j + 1, i - 1, Target(ws[j].pg));
      WholeVersion(ws, actions, j, i - 1);
      WholeStep(ws[i - 1], actions[i - 1], actions[j].s, Target(ws[j].pg));
    }
  }

  lemma NewVersions(w: World, a: Action, v: nat)
    requires Enabled(w, a) && v in Apply(w, a).pg.versions
    ensures v in w.pg.versions || (a.Stage? && v == Target(w.pg))
  {
    hide Latest, StageOk, Reconcile.Classifies;
    match a
    case Collect(retain, _, _) => AtLeastMembers(w.pg.versions, Gc.Threshold(w.pg, retain));
    case _ =>
  }

  /** A collected version never comes back. */
  lemma VersionsFade(ws: seq<World>, actions: seq<Action>, i: nat, j: nat, v: nat)
    requires Run(ws, actions) && i <= j < |actions| && v <= Latest(ws[i].pg.versions) && v in ws[j + 1].pg.versions
    ensures v in ws[j].pg.versions
  {
    hide Apply, Enabled, Initial;
    Monotone(ws, actions, i, j);
    NewVersions(ws[j], actions[j], v);
  }

  /** Every version still present was staged at some point of the run. */
  lemma {:induction false} StagedBy(ws: seq<World>, actions: seq<Action>, i: nat, v: nat) returns (j: nat)
    requires Run(ws, actions) && i <= |actions| && v in ws[i].pg.versions
    ensures j < i && actions[j].Stage? && Target(ws[j].pg) == v
  {
    hide Apply, Enabled;
    if v in ws[i - 1].pg.versions {
      j := StagedBy(ws, actions, i - 1, v);
    } else {
      j := i - 1;
      NewVersions(ws[j], actions[j], v);
    }
  }

  // ---------- agreement ----------

  /** The index holds exactly the live rows of the file, each as staged, visible iff its version is active. */
  ghost predicate Agrees(w: World) {
    && (forall id | id in w.es && Reconcile.Labelled(w.pg, w.es[id]) :: Live(w.pg, id))
    && (forall id | Live(w.pg, id) ::
          && id in w.es
          && w.es[id].(vec := None) == Expected(w.pg, id).(visible := ActiveId(w.pg, id), vec := None)
          && (w.exact ==> w.es[id].vec == Some(Embed(w.es[id].text))))
  }

  /** The same before the first publish, where nothing has to be visible yet: every row has its document, with
      its contents, visible only if its version counts as active, and no other document has the file's label. */
  ghost predicate Matches(w: World) {
    forall id :: Safe(w.pg, w.exact, id, At(w.es, id)) && Good(w.pg, id, At(w.es, id))
  }

  lemma QuietMatches(w: World)
    requires SyncOk(w) && Unpublished(w.outbox) == {}
    ensures Matches(w)
  {
    NothingUnpublished(w.outbox);
    forall id ensures Safe(w.pg, w.exact, id, At(w.es, id)) && Good(w.pg, id, At(w.es, id)) {
      assert SafeOf(w.pg, w.exact)(id, At(w.es, id)) && GoodOf(w.pg)(id, At(w.es, id));
    }
  }

  lemma MatchesAgrees(w: World)
    requires w.pg.flipped
    ensures Matches(w) <==> Agrees(w)
  {
    if Matches(w) {
      forall id
        ensures id in w.es && Reconcile.Labelled(w.pg, w.es[id]) ==> Live(w.pg, id)
        ensures Live(w.pg, id) ==> id in w.es && Faithful(w.pg, w.exact, id, w.es[id]) && w.es[id].visible == ActiveId(w.pg, id)
      {
        assert Safe(w.pg, w.exact, id, At(w.es, id)) && Good(w.pg, id, At(w.es, id));
      }
    }
    if Agrees(w) {
      forall id ensures Safe(w.pg, w.exact, id, At(w.es, id)) && Good(w.pg, id, At(w.es, id)) { }
    }
  }

  lemma QuietAgrees(w: World)
    requires SyncOk(w) && w.pg.flipped && Unpublished(w.outbox) == {}
    ensures Agrees(w)
  {
    QuietMatches(w);
    MatchesAgrees(w);
  }

  /** Whenever a file has nothing unpublished, the index matches PostgreSQL, and agrees with it in full once the
      file is published. */
  lemma Agreement(ws: seq<World>, actions: seq<Action>, i: nat)
    requires Run(ws, actions) && Orderly(ws, actions) && i <= |actions| && Unpublished(ws[i].outbox) == {}
    ensures Matches(ws[i]) && (ws[i].pg.flipped ==> Agrees(ws[i]))
  {
    RunSync(ws, actions, i);
    QuietMatches(ws[i]);
    if ws[i].pg.flipped { MatchesAgrees(ws[i]); }
  }

  lemma ExactStep(w: World, a: Action)
    requires Enabled(w, a)
    ensures Apply(w, a).exact <==> w.exact && (a.Stage? ==> ExactVectors(a.s))
  {
    match a
    case Stage(_) =>
    case Collect(_, _, _) =>
    case _ =>
  }

  /** Vectors stay exact as long as every staging was given exact vectors. */
  lemma {:induction false} ExactRun(ws: seq<World>, actions: seq<Action>, i: nat)
    requires Run(ws, actions) && i <= |actions|
    ensures ws[i].exact <==> forall j | 0 <= j < i && actions[j].Stage? :: ExactVectors(actions[j].s)
  {
    hide Apply, Enabled, ExactVectors;
    if i > 0 {
      ExactRun(ws, actions, i - 1);
      ExactStep(ws[i - 1], actions[i - 1]);
    }
  }

  // ---------- outbox rows ----------

  /** The status column tells what the other columns say. */
  predicate RowOk(row: OutboxRow) {
    match row.status
    case Published => row.published
    case Failed => !row.published && row.attempts >= 3
    case Pending => !row.published && row.attempts < 3
  }

  ghost predicate RowsOk(outbox: Outbox) {
    forall k | k in outbox :: RowOk(outbox[k])
  }

  lemma EnqueueRows(outbox: Outbox, next: nat, now: nat, events: seq<Event>)
    requires RowsOk(outbox)
    ensures RowsOk(Enqueue(outbox, next, now, events))
  {
    hide Enqueue;
  }

  lemma RowsStep(w: World, a: Action)
    requires Enabled(w, a) && RowsOk(w.outbox)
    ensures RowsOk(Apply(w, a).outbox)
  {
    hide Publish, RowOk, RowsOk, StagePg, StageEvents, FlipPg, FlipEvents, Gc.PurgePg, Gc.DeleteEvents, Reconcile.RepairEvents, Enqueue;
    match a
    case Stage(s) => EnqueueRows(w.outbox, w.next, w.clock, StageEvents(w.pg, s));
    case Attempt(k, calls, _) => MarkRows(w.outbox, k, Publish(w.outbox[k].event, w.es, calls).1);
    case Flip(oldIds) => EnqueueRows(w.outbox, w.next, w.clock, FlipEvents(w.inflight.value.ids, oldIds));
    case Collect(_, c, s) => EnqueueRows(w.outbox, w.next, w.clock, Gc.DeleteEvents(c + s));
    case Commit(pg, _, c) => EnqueueRows(w.outbox, w.next, w.clock, Reconcile.RepairEvents(pg, c));
    case Prune(aged) => PruneRows(w.outbox, aged);
    case _ =>
  }

  lemma MarkRows(outbox: Outbox, k: nat, ok: bool)
    requires RowsOk(outbox) && Open(outbox, k)
    ensures RowsOk(Mark(outbox, k, ok, MAX_ATTEMPTS))
  {
  }

  lemma PruneRows(outbox: Outbox, aged: set<nat>)
    requires RowsOk(outbox)
    ensures RowsOk(PruneOutbox(outbox, aged))
  {
  }

  /** In every reachable state an unpublished row is marked failed iff its attempts are used up; it stays
      unpublished, so that the barrier keeps counting it, until an attempt succeeds. */
  lemma {:induction false} StatusTells(ws: seq<World>, actions: seq<Action>, i: nat)
    requires Run(ws, actions) && i <= |actions|
    ensures RowsOk(ws[i].outbox)
  {
    hide Apply, Enabled, RowOk;
    if i > 0 {
      StatusTells(ws, actions, i - 1);
      RowsStep(ws[i - 1], actions[i - 1]);
      hide RowsOk;
    }
  }

  /** The action is an attempt at row k whose mark is committed. */
  ghost predicate Attempts(w: World, a: Action, k: nat) {
    a.Attempt? && a.k == k && a.committed && k in w.outbox
  }

  ghost predicate Delivers(w: World, a: Action, k: nat) {
    Attempts(w, a, k) && Publish(w.outbox[k].event, w.es, a.calls).1
  }

  ghost predicate Fails(w: World, a: Action, k: nat) {
    Attempts(w, a, k) && !Publish(w.outbox[k].event, w.es, a.calls).1
  }

  /** What a step leaves in an outbox row that was there before, and in one that was not. */
  ghost predicate RowFollows(w: World, a: Action, k: nat, row: OutboxRow) {
    if k < w.next then
      && k in w.outbox && row.event == w.outbox[k].event && row.created == w.outbox[k].created
      && row.attempts == w.outbox[k].attempts + (if Fails(w, a, k) then 1 else 0)
      && (row.published <==> w.outbox[k].published || Delivers(w, a, k))
    else row.attempts == 0 && !row.published && row.created == w.clock
  }

  lemma RowAfter(w: World, a: Action, k: nat)
    requires Enabled(w, a) && (forall j :: j in w.outbox ==> j < w.next) && k in Apply(w, a).outbox
    ensures RowFollows(w, a, k, Apply(w, a).outbox[k])
    ensures Apply(w, a).next >= w.next && Apply(w, a).clock >= w.clock && (k >= w.next ==> k < Apply(w, a).next && Apply(w, a).clock > w.clock)
  {
    hide Publish, StagePg, StageEvents, FlipPg, FlipEvents, Gc.PurgePg, Gc.DeleteEvents, Reconcile.RepairEvents, Enqueue, StageOk, Reconcile.Classifies;
    match a
    case Stage(s) =>
    case Attempt(j, calls, committed) =>
    case Flip(oldIds) =>
    case Collect(_, _, _) =>
    case Commit(_, _, _) =>
    case Prune(_) =>
    case _ =>
  }

  lemma ClockGrows(w: World, a: Action)
    requires Enabled(w, a)
    ensures Apply(w, a).next >= w.next && Apply(w, a).clock >= w.clock
  {
    hide Publish, StagePg, StageEvents, FlipPg, FlipEvents, Gc.PurgePg, Gc.DeleteEvents, Reconcile.RepairEvents, Enqueue, StageOk, Reconcile.Classifies;
  }

  /** The steps of a run at which the row was attempted in vain. */
  ghost function Failures(ws: seq<World>, actions: seq<Action>, i: nat, k: nat): set<nat>
    requires i <= |actions| && |ws| == |actions| + 1
  {
    set j | 0 <= j < i && Fails(ws[j], actions[j], k)
  }

  lemma FailuresNext(ws: seq<World>, actions: seq<Action>, i: nat, k: nat)
    requires i < |actions| && |ws| == |actions| + 1
    ensures |Failures(ws, actions, i + 1, k)| == |Failures(ws, actions, i, k)| + if Fails(ws[i], actions[i], k) then 1 else 0
  {
    hide Fails;
    var before := Failures(ws, actions, i, k);
    assert Failures(ws, actions, i + 1, k) == if Fails(ws[i], actions[i], k) then before + {i} else before;
  }

  /** No row that is still to be inserted has been attempted. */
  lemma {:induction false} NotYetAttempted(ws: seq<World>, actions: seq<Action>, i: nat, k: nat)
    requires Run(ws, actions) && i <= |actions| && k >= ws[i].next
    ensures Failures(ws, actions, i, k) == {} && forall j | 0 <= j < i :: !Delivers(ws[j], actions[j], k)
  {
    hide Apply, Enabled, Fails, Delivers, TablesOk;
    if i > 0 {
      ClockGrows(ws[i - 1], actions[i - 1]);
      NotYetAttempted(ws, actions, i - 1, k);
      RunTables(ws, actions, i - 1);
      NoSuchRow(ws[i - 1], actions[i - 1], k);
      assert forall j | 0 <= j < i - 1 :: j in Failures(ws, actions, i - 1, k) <==> Fails(ws[j], actions[j], k);
    }
  }

  lemma NoSuchRow(w: World, a: Action, k: nat)
    requires TablesOk(w) && k >= w.next
    ensures !Fails(w, a, k) && !Delivers(w, a, k)
  {
    hide ReadingsOk, ChunksOk, SummariesOk, AnchorsOk, PointersOk, InflightOk, Publish;
  }

  /** In every reachable state, a row's attempts are the failed ones so far whose mark was committed, and it is published
      iff some attempt succeeded and was marked. */
  lemma {:induction false} AttemptsCount(ws: seq<World>, actions: seq<Action>, i: nat, k: nat)
    requires Run(ws, actions) && i <= |actions| && k in ws[i].outbox
    ensures ws[i].outbox[k].attempts == |Failures(ws, actions, i, k)|
    ensures ws[i].outbox[k].published <==> exists j | 0 <= j < i :: Delivers(ws[j], actions[j], k)
  {
    hide Apply, Enabled, Fails, Delivers, TablesOk;
    if i > 0 {
      RunTables(ws, actions, i - 1);
      KeysBelow(ws[i - 1]);
      RowAfter(ws[i - 1], actions[i - 1], k);
      FailuresNext(ws, actions, i - 1, k);
      hide Failures;
      if k < ws[i - 1].next {
        AttemptsCount(ws, actions, i - 1, k);
        assert Delivers(ws[i - 1], actions[i - 1], k) ==> exists j | 0 <= j < i :: Delivers(ws[j], actions[j], k);
      } else {
        NotYetAttempted(ws, actions, i - 1, k);
        NoSuchRow(ws[i - 1], actions[i - 1], k);
      }
    }
  }

  lemma KeysBelow(w: World)
    requires TablesOk(w)
    ensures forall k :: k in w.outbox ==> k < w.next
  {
    hide ReadingsOk, ChunksOk, SummariesOk, AnchorsOk, InflightOk, PointersOk;
  }

  lemma {:induction false} CreatedBefore(ws: seq<World>, actions: seq<Action>, i: nat, k: nat)
    requires Run(ws, actions) && i <= |actions| && k in ws[i].outbox
    ensures k < ws[i].next && ws[i].outbox[k].created < ws[i].clock
  {
    hide Apply, Enabled, TablesOk;
    RunTables(ws, actions, i);
    KeysBelow(ws[i]);
    if i > 0 {
      RunTables(ws, actions, i - 1);
      KeysBelow(ws[i - 1]);
      RowAfter(ws[i - 1], actions[i - 1], k);
      if k < ws[i - 1].next { CreatedBefore(ws, actions, i - 1, k); }
    }
  }

  /** Rows that are inserted after some moment of a run are created later than all that were there at that moment: a
      drain, which goes by creation time, attempts the events of an earlier transaction first. */
  lemma {:induction false} CreatedLater(ws: seq<World>, actions: seq<Action>, i: nat, j: nat, k: nat)
    requires Run(ws, actions) && i <= j <= |actions| && k in ws[j].outbox
    ensures k >= ws[i].next ==> ws[j].outbox[k].created >= ws[i].clock
    ensures k < ws[i].next ==> k in ws[i].outbox && ws[j].outbox[k].created == ws[i].outbox[k].created < ws[i].clock
    decreases j
  {
    hide Apply, Enabled, TablesOk;
    if i == j {
      CreatedBefore(ws, actions, i, k);
    } else {
      RunTables(ws, actions, j - 1);
      KeysBelow(ws[j - 1]);
      RowAfter(ws[j - 1], actions[j - 1], k);
      ClocksGrow(ws, actions, i, j - 1);
      if k < ws[j - 1].next { CreatedLater(ws, actions, i, j - 1, k); }
    }
  }

  lemma {:induction false} ClocksGrow(ws: seq<World>, actions: seq<Action>, i: nat, j: nat)
    requires Run(ws, actions) && i <= j <= |actions|
    ensures ws[i].next <= ws[j].next && ws[i].clock <= ws[j].clock
    decreases j
  {
    hide Apply, Enabled;
    if i < j {
      ClocksGrow(ws, actions, i, j - 1);
      ClockGrows(ws[j - 1], actions[j - 1]);
    }
  }

  // ---------- the outbox cannot wedge ----------

  /** An unpublished event of a reachable state fails only if the index stops answering, or if it is a deletion
      that meets a missing document and the index takes that for an error. */
  lemma NeverWedged(ws: seq<World>, actions: seq<Action>, i: nat, k: nat, calls: nat)
    requires Run(ws, actions) && Orderly(ws, actions) && i <= |actions| && Open(ws[i].outbox, k)
    ensures var e := ws[i].outbox[k].event;
      Publish(e, ws[i].es, calls).1 <==> calls >= Size(e) && (e.Delete? ==> Deletable(ws[i].es, e.ids))
  {
    hide TablesOk, SyncOk, Enabled, Apply, Initial, Orderly, Publish;
    RunSync(ws, actions, i);
    SyncUnwedged(ws[i]);
    PublishBetween(ws[i].outbox[k].event, ws[i].es, calls);
  }

  /** A drain's rows: all unpublished ones, each once. */
  ghost predicate Selects(outbox: Outbox, rows: seq<nat>) {
    Lists(rows, Unpublished(outbox))
  }

  function AfterDrain(w: World, rows: seq<nat>, calls: seq<nat>): World
    requires |calls| == |rows| && forall k :: k in rows ==> k in w.outbox
  {
    var r := Drain(w.es, w.outbox, rows, calls, MAX_ATTEMPTS);
    w.(es := r.es, outbox := r.outbox)
  }

  /** One drain against an index that answers publishes everything that was pending, if and only if no deletion
      meets a document that is missing already, should the index take that for an error. */
  lemma DrainClears(ws: seq<World>, actions: seq<Action>, i: nat, rows: seq<nat>, calls: seq<nat>)
    requires Run(ws, actions) && Orderly(ws, actions) && i <= |actions|
    requires Selects(ws[i].outbox, rows) && |calls| == |rows|
    requires forall j | 0 <= j < |rows| && rows[j] in ws[i].outbox :: calls[j] >= Size(ws[i].outbox[rows[j]].event)
    ensures var w' := AfterDrain(ws[i], rows, calls);
      && (Unpublished(w'.outbox) == {} <==> Removable(ws[i].es, ws[i].outbox))
      && (Unpublished(w'.outbox) == {} ==> Matches(w') && (ws[i].pg.flipped ==> Agrees(w')))
  {
    RunSync(ws, actions, i);
    var w, w' := ws[i], AfterDrain(ws[i], rows, calls);
    hide TablesOk, SyncOk, Matches, Agrees, Removable, Drain;
    if Removable(w.es, w.outbox) {
      SyncUnwedged(w);
      DrainEmpties(w.es, w.outbox, rows, calls);
    }
    if Unpublished(w'.outbox) == {} {
      ClearedNeeds(w, rows, calls);
      ClearedMatches(w, rows, calls);
      if w.pg.flipped { MatchesAgrees(w'); }
    }
  }

  lemma SyncUnwedged(w: World)
    requires SyncOk(w)
    ensures Unwedged(w.es, w.outbox) && Separate(w.outbox)
  {
    forall j, k | Open(w.outbox, j) && w.outbox[j].event.IndexDoc? && Open(w.outbox, k) && w.outbox[k].event.Delete?
      ensures w.outbox[j].event.id !in w.outbox[k].event.ids
    {
      assert Mentions(w.outbox[j].event, w.outbox[j].event.id);
      assert forall id :: id in w.outbox[k].event.ids ==> Mentions(w.outbox[k].event, id);
    }
  }

  /** A drain that clears had nothing but deletions that can be delivered. */
  lemma ClearedNeeds(w: World, rows: seq<nat>, calls: seq<nat>)
    requires SyncOk(w) && Selects(w.outbox, rows) && |calls| == |rows| && forall k :: k in rows ==> k in w.outbox
    requires Unpublished(Drain(w.es, w.outbox, rows, calls, MAX_ATTEMPTS).outbox) == {}
    ensures Removable(w.es, w.outbox)
  {
    SyncUnwedged(w);
    forall k | k in rows ensures Open(w.outbox, k) { assert k in Unpublished(w.outbox); }
    forall k: nat | Open(w.outbox, k) ensures k in rows { assert k in Unpublished(w.outbox); }
    ListsCount(rows, Unpublished(w.outbox));
    hide SyncOk, Drain, Separate, Unpublished;
    DrainCounts(w.es, w.outbox, rows, calls, MAX_ATTEMPTS);
    DrainNeeds(w.es, w.outbox, rows, calls, MAX_ATTEMPTS);
    AllRemovable(w.es, w.outbox, rows);
  }

  lemma AllRemovable(es: Index, outbox: Outbox, rows: seq<nat>)
    requires RemovableRows(es, outbox, rows) && forall k: nat :: Open(outbox, k) ==> k in rows
    ensures Removable(es, outbox)
  {
    hide Deletable;
    forall k: nat, id | STRICT_DELETE && Open(outbox, k) && outbox[k].event.Delete? && id in outbox[k].event.ids ensures DeletedOnce(outbox, k, id) {
      assert Deletes(outbox, k, id);
      forall j: nat | Open(outbox, j) && outbox[j].event.Delete? && id in outbox[j].event.ids ensures j == k {
        assert Deletes(outbox, j, id);
      }
    }
  }

  lemma ClearedMatches(w: World, rows: seq<nat>, calls: seq<nat>)
    requires SyncOk(w) && Selects(w.outbox, rows) && |calls| == |rows| && forall k :: k in rows ==> k in w.outbox
    requires Unpublished(AfterDrain(w, rows, calls).outbox) == {}
    ensures Matches(AfterDrain(w, rows, calls))
  {
    var w' := AfterDrain(w, rows, calls);
    forall k | k in rows ensures Open(w.outbox, k) { assert k in Unpublished(w.outbox); }
    hide Drain;
    DrainConverges(SafeOf(w.pg, w.exact), GoodOf(w.pg), w.es, w.outbox, rows, calls, MAX_ATTEMPTS);
    NothingUnpublished(w'.outbox);
    forall id ensures Safe(w'.pg, w'.exact, id, At(w'.es, id)) && Good(w'.pg, id, At(w'.es, id)) {
      assert SafeOf(w.pg, w.exact)(id, At(w'.es, id)) && GoodOf(w.pg)(id, At(w'.es, id));
    }
  }

  lemma DrainEmpties(es: Index, outbox: Outbox, rows: seq<nat>, calls: seq<nat>)
    requires Unwedged(es, outbox) && Removable(es, outbox) && Selects(outbox, rows) && |calls| == |rows|
    requires forall j | 0 <= j < |rows| && rows[j] in outbox :: calls[j] >= Size(outbox[rows[j]].event)
    ensures Selected(outbox, rows) && forall k :: k in rows ==> k in outbox
    ensures Unpublished(Drain(es, outbox, rows, calls, MAX_ATTEMPTS).outbox) == {}
  {
    forall k | k in rows ensures Open(outbox, k) { assert k in Unpublished(outbox); }
    forall i | 0 <= i < |rows| ensures rows[i] in outbox { assert rows[i] in rows; }
    hide Drain, Unwedged, Removable;
    DrainHealthy(es, outbox, rows, calls, MAX_ATTEMPTS);
    DrainCounts(es, outbox, rows, calls, MAX_ATTEMPTS);
    ListsCount(rows, Unpublished(outbox));
    NothingUnpublished(Drain(es, outbox, rows, calls, MAX_ATTEMPTS).outbox);
  }

  lemma NothingUnpublished(outbox: Outbox)
    requires |Unpublished(outbox)| == 0
    ensures Unpublished(outbox) == {} && forall k: nat :: !Open(outbox, k)
  {
    assert forall k: nat :: Open(outbox, k) ==> k in Unpublished(outbox);
  }
}
