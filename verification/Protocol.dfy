/** One file's publish protocol as a state machine: the committed tables, the outbox and the index, with
    one action per transaction or delivery attempt. Whatever the code leaves to chance (row order, random
    uuids, outages, lost commits, other files' writes) is a parameter of the action. */
module Protocol {
  import opened Schema
  import opened Relay
  import opened Tables
  import opened Pipeline
  import Gc
  import Reconcile
  import Simhash

  /** The running ingest_file of this file: its target version, the ids it staged, and whether it has
      passed the drain barrier. */
  datatype Inflight = Inflight(target: nat, ids: seq<Id>, cleared: bool)

  /** What a running reconcile has read: the tables it loaded in one transaction and the index at one of the
      moments at which it looked at documents afterwards. */
  datatype Reading = Reading(pg: Pg, es: Index)

  /** `issued` (ids ever handed out to this file) and `exact` (every staged vector was the embedding of its
      text) are history variables: no action reads them. `readings` holds what reconciles have read; those
      that loaded equal tables are not told apart. */
  datatype World = World(
    pg: Pg, outbox: Outbox, next: nat, clock: nat, es: Index,
    inflight: Option<Inflight>, issued: set<Id>, exact: bool, readings: set<Reading>)

  datatype Action =
    | Stage(s: Staging)
    | Attempt(k: nat, calls: nat, committed: bool)
    | Barrier
    | Flip(oldIds: seq<Id>)
    | Abort
    | Collect(retain: nat, chunkIds: seq<Id>, summaryIds: seq<Id>)
    | Load
    | Look(pg: Pg)
    | Commit(pg: Pg, seen: Index, c: Reconcile.Drift)
    | Prune(aged: set<nat>)
    | Relocate(summary: Id, target: Id)
    | Foreign(es: Index)
    | Drift(es: Index)

  const MAX_ATTEMPTS: nat := 3

  // ---------- what the code and its environment guarantee about each action ----------

  /** Chunks as _new_chunks makes them, summaries naming only these chunks, uuids never used before. */
  ghost predicate StageOk(w: World, s: Staging) {
    && Shaped(s)
    && (forall i | 0 <= i < |s.chunks| ::
          && s.chunks[i].id == ChunkId(w.pg.file, Target(w.pg), i)
          && s.chunks[i].order == i && s.chunks[i].hash == Sha256(s.chunks[i].content)
          && s.chunks[i].simhash == Simhash.Simhash(s.chunks[i].content))
    && (forall i | 0 <= i < |s.items| ::
          s.items[i].sources != [] && forall id :: id in s.items[i].sources ==> id in ChunkIds(s.chunks))
    && FreshUuids(w, s.summaryIds) && FreshUuids(w, s.anchorIds)
    && (forall id :: id in s.summaryIds ==> id !in s.anchorIds)
    && StorableChunks(s.chunks) && StorableItems(s.items)
  }

  ghost predicate FreshUuids(w: World, ids: seq<Id>) {
    && Distinct(ids)
    && forall id :: id in ids ==> id.Uuid4? && id !in w.issued && id !in w.es
  }

  /** Other files write documents under ids that are not this file's. */
  ghost predicate ForeignOk(w: World, es': Index) {
    forall id :: At(es', id) == At(w.es, id) || (Alien(w, id, At(es', id)) && Alien(w, id, At(w.es, id)))
  }

  ghost predicate Alien(w: World, id: Id, d: Option<Doc>) {
    && id !in w.issued && !(id.ChunkId? && id.file == w.pg.file)
    && (d.Some? ==> !Reconcile.Labelled(w.pg, d.value))
  }

  ghost predicate Quiet(w: World) {
    forall k :: !Open(w.outbox, k)
  }

  ghost predicate Loaded(readings: set<Reading>, pg: Pg) {
    exists r :: r in readings && r.pg == pg
  }

  ghost predicate SeenAt(readings: set<Reading>, pg: Pg, d: Option<Doc>, id: Id) {
    exists r :: r in readings && r.pg == pg && At(r.es, id) == d
  }

  /** A reconcile reads the index document by document: each is as it was at one of its moments. */
  ghost predicate Seen(readings: set<Reading>, pg: Pg, seen: Index) {
    Loaded(readings, pg) && forall id :: SeenAt(readings, pg, At(seen, id), id)
  }

  ghost predicate Enabled(w: World, a: Action) {
    match a
    case Stage(s) => w.inflight.None? && StageOk(w, s)
    case Attempt(k, _, _) => Open(w.outbox, k)
    case Barrier => w.inflight.Some? && Quiet(w)
    case Flip(oldIds) => w.inflight.Some? && w.inflight.value.cleared && Lists(oldIds, Below(w.pg, w.inflight.value.target))
    case Abort => true
    case Collect(retain, chunkIds, summaryIds) =>
      && retain >= 1 && Quiet(w) && Gc.LockstepOk(w.pg.active)
      && Lists(chunkIds, ChunksBelow(w.pg, Gc.Threshold(w.pg, retain)))
      && Lists(summaryIds, SummariesBelow(w.pg, Gc.Threshold(w.pg, retain)))
    case Load => true
    case Look(pg) => Loaded(w.readings, pg)
    case Commit(pg, seen, c) => Seen(w.readings, pg, seen) && Reconcile.Classifies(pg, seen, c)
    case Prune(_) => true
    case Relocate(_, _) => true
    case Foreign(es') => ForeignOk(w, es')
    case Drift(_) => true
  }

  // ---------- effects ----------

  function Emit(w: World, events: seq<Event>): World {
    w.(outbox := Enqueue(w.outbox, w.next, w.clock, events), next := w.next + |events|, clock := w.clock + 1)
  }

  ghost predicate ExactVectors(s: Staging) {
    && (forall i | 0 <= i < |s.vecs| && i < |s.chunks| :: s.vecs[i] == Some(Embed(s.chunks[i].content)))
    && (forall i | 0 <= i < |s.items| :: s.items[i].vec == Some(Embed(s.items[i].text)))
  }

  /** Deletes the published rows among those whose publication is older than the cutoff. */
  function PruneOutbox(outbox: Outbox, aged: set<nat>): Outbox {
    map k | k in outbox && !(outbox[k].published && k in aged) :: outbox[k]
  }

  ghost function StageWorld(w: World, s: Staging): World
    requires Shaped(s)
  {
    var ids := NewIds(s);
    Emit(w, StageEvents(w.pg, s)).(
      pg := StagePg(w.pg, s), inflight := Some(Inflight(Target(w.pg), ids, false)),
      issued := w.issued + Members(ids) + Members(s.anchorIds),
      exact := w.exact && ExactVectors(s))
  }

  function AttemptWorld(w: World, k: nat, calls: nat, committed: bool): World
    requires k in w.outbox
  {
    var (es', ok) := Publish(w.outbox[k].event, w.es, calls);
    w.(es := es', outbox := if committed then Mark(w.outbox, k, ok, MAX_ATTEMPTS) else w.outbox)
  }

  function FlipWorld(w: World, newIds: seq<Id>, oldIds: seq<Id>, target: nat): World {
    Emit(w, FlipEvents(newIds, oldIds)).(pg := FlipPg(w.pg, target), inflight := None)
  }

  /** UPDATE kb_anchor SET target_chunk_id, validity = 'relocated' WHERE summary_doc_id = ... */
  function RelocatePg(pg: Pg, summary: Id, target: Id): Pg {
    pg.(anchors := map a | a in pg.anchors ::
      if pg.anchors[a].summary == summary then pg.anchors[a].(target := Some(target), validity := Relocated) else pg.anchors[a])
  }

  function CollectWorld(w: World, threshold: int, ids: seq<Id>): World {
    if threshold <= 1 then w
    else Emit(w, Gc.DeleteEvents(ids)).(pg := Gc.PurgePg(w.pg, threshold))
  }

  ghost function Apply(w: World, a: Action): World
    requires Enabled(w, a)
  {
    match a
    case Stage(s) => StageWorld(w, s)
    case Attempt(k, calls, committed) => AttemptWorld(w, k, calls, committed)
    case Barrier => w.(inflight := Some(w.inflight.value.(cleared := true)))
    case Flip(oldIds) => FlipWorld(w, w.inflight.value.ids, oldIds, w.inflight.value.target)
    case Abort => w.(inflight := None)
    case Collect(retain, chunkIds, summaryIds) => CollectWorld(w, Gc.Threshold(w.pg, retain), chunkIds + summaryIds)
    case Load => w.(readings := w.readings + {Reading(w.pg, w.es)})
    case Look(pg) => w.(readings := w.readings + {Reading(pg, w.es)})
    case Commit(pg, _, c) => Emit(w, Reconcile.RepairEvents(pg, c))
    case Prune(aged) => w.(outbox := PruneOutbox(w.outbox, aged))
    case Relocate(summary, target) => w.(pg := RelocatePg(w.pg, summary, target))
    case Foreign(es') => w.(es := es')
    case Drift(es') => w.(es := es')
  }

  // ---------- runs ----------

  /** A registered file before its first ingest, in an index that may hold other files' documents. */
  ghost predicate Initial(w: World) {
    && w.pg == Pg(w.pg.file, w.pg.tenant, map[], map[], map[], [], Pointers(1, 1, 1, 1), false)
    && w.outbox == map[] && w.inflight.None? && w.issued == {} && w.exact && w.readings == {}
    && forall id :: id in w.es ==> Alien(w, id, At(w.es, id))
  }

  ghost predicate Steps(ws: seq<World>, actions: seq<Action>) {
    && |ws| == |actions| + 1
    && forall i | 0 <= i < |actions| :: Enabled(ws[i], actions[i]) && ws[i + 1] == Apply(ws[i], actions[i])
  }

  ghost predicate Run(ws: seq<World>, actions: seq<Action>) {
    Steps(ws, actions) && Initial(ws[0])
  }

  // ---------- when a repair may be committed ----------

  /** The event does what the tables ask for: it deletes documents without a row only, and shows exactly the
      active rows' documents. */
  ghost predicate Suits(pg: Pg, e: Event) {
    match e
    case IndexDoc(id, source) => Live(pg, id) && source.visible == ActiveId(pg, id)
    case SetAvailable(ids, v) => forall id :: id in ids ==> Live(pg, id) && v == ActiveId(pg, id)
    case Delete(ids) => forall id :: id in ids ==> !Live(pg, id)
    case Unknown(_) => false
  }

  predicate Cleared(w: World) {
    w.inflight.Some? && w.inflight.value.cleared
  }

  /** It suits the tables as they are and, should an ingest have passed its barrier, as its flip will leave them. */
  ghost predicate Fits(w: World, e: Event) {
    Suits(w.pg, e) && (Cleared(w) ==> Suits(FlipPg(w.pg, w.inflight.value.target), e))
  }

  ghost predicate AllFit(w: World, events: seq<Event>) {
    forall i | 0 <= i < |events| :: Fits(w, events[i])
  }

  /** Not a write from outside, and if it commits a repair, then one whose events still fit. Commits compare
      the ids of their events with the current rows; they need not read the index again. */
  ghost predicate Proper(w: World, a: Action) {
    !a.Drift? && (a.Commit? ==> Reconcile.Repairable(a.pg, a.c) && AllFit(w, Reconcile.RepairEvents(a.pg, a.c)))
  }

  ghost predicate Orderly(ws: seq<World>, actions: seq<Action>) {
    |ws| == |actions| + 1 && forall i | 0 <= i < |actions| :: Proper(ws[i], actions[i])
  }
}
