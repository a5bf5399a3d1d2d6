/** The post-retrieval fence (app/retrieval/guard.py): every hit is checked against PostgreSQL again. */
module Guard {
  import opened Schema
  import opened Tables
  import opened Pipeline
  import opened Protocol
  import opened TableInvariant
  import Runs
  import Scenarios
  import Simhash

  /** A search hit: the chunk it names and the file it claims to come from. */
  datatype Hit = Hit(chunk: Id, file: string)

  /** The tables of all files. kb_chunk's primary key is the chunk id, and that id determines the file. */
  type Catalogue = map<string, Pg>

  function Lookup(cat: Catalogue, id: Id): Option<(string, nat)> {
    if id.ChunkId? && id.file in cat && id in cat[id.file].chunks
    then Some((cat[id.file].tenant, cat[id.file].chunks[id].version))
    else None
  }

  predicate Passes(cat: Catalogue, h: Hit, tenant: string, allowed: set<string>) {
    var row := Lookup(cat, h.chunk);
    && row.Some? && row.value.0 == tenant && h.file in allowed
    && h.file in cat && row.value.1 == cat[h.file].active.chunk
  }

  function Kept(cat: Catalogue, hits: seq<Hit>, tenant: string, allowed: set<string>): (r: seq<Hit>)
    ensures forall h :: h in r <==> h in hits && Passes(cat, h, tenant, allowed)
  {
    if hits == [] then []
    else
      var n := |hits| - 1;
      assert hits == hits[..n] + [hits[n]];
      Kept(cat, hits[..n], tenant, allowed) + if Passes(cat, hits[n], tenant, allowed) then [hits[n]] else []
  }

  function Dropped(cat: Catalogue, hits: seq<Hit>, tenant: string, allowed: set<string>): seq<Id> {
    if hits == [] then []
    else
      var n := |hits| - 1;
      Dropped(cat, hits[..n], tenant, allowed) + if Passes(cat, hits[n], tenant, allowed) then [] else [hits[n].chunk]
  }

  /** Returns the surviving hits in order, and the dropped chunk ids; a violation is audited iff any was dropped. */
  method Postverify(cat: Catalogue, hits: seq<Hit>, tenant: string, allowed: set<string>)
    returns (kept: seq<Hit>, dropped: seq<Id>, audited: bool)
    ensures kept == Kept(cat, hits, tenant, allowed) && dropped == Dropped(cat, hits, tenant, allowed)
    ensures audited <==> dropped != []
  {
    kept, dropped := [], [];
    for i := 0 to |hits|
      invariant kept == Kept(cat, hits[..i], tenant, allowed) && dropped == Dropped(cat, hits[..i], tenant, allowed)
    {
      assert hits[..i + 1][..i] == hits[..i];
      if Passes(cat, hits[i], tenant, allowed) {
        kept := kept + [hits[i]];
      } else {
        dropped := dropped + [hits[i].chunk];
      }
    }
    assert hits[..|hits|] == hits;
    audited := dropped != [];
  }

  /** The named chunk is stored, by a file of the tenant, in the version that is active for the file that the hit claims to
      come from, and this file may be searched. */
  ghost predicate Allowed(cat: Catalogue, h: Hit, tenant: string, allowed: set<string>) {
    exists own: string, row: ChunkRow ::
      && own in cat && h.chunk.ChunkId? && h.chunk.file == own && h.chunk in cat[own].chunks && cat[own].chunks[h.chunk] == row
      && cat[own].tenant == tenant && h.file in allowed && h.file in cat && row.version == cat[h.file].active.chunk
  }

  lemma PassesIff(cat: Catalogue, h: Hit, tenant: string, allowed: set<string>)
    ensures Passes(cat, h, tenant, allowed) <==> Allowed(cat, h, tenant, allowed)
  {
    if Passes(cat, h, tenant, allowed) {
      assert cat[h.chunk.file].chunks[h.chunk] == cat[h.chunk.file].chunks[h.chunk];
    }
  }

  ghost function MayPass(cat: Catalogue, tenant: string, allowed: set<string>): Hit -> bool {
    (h: Hit) => Allowed(cat, h, tenant, allowed)
  }

  ghost function MayNot(cat: Catalogue, tenant: string, allowed: set<string>): Hit -> bool {
    (h: Hit) => !Allowed(cat, h, tenant, allowed)
  }

  lemma PassNext(cat: Catalogue, hits: seq<Hit>, tenant: string, allowed: set<string>)
    requires hits != []
    ensures var n := |hits| - 1; var pass := Passes(cat, hits[n], tenant, allowed);
      && MayPass(cat, tenant, allowed)(hits[n]) == pass && MayNot(cat, tenant, allowed)(hits[n]) == !pass
      && Kept(cat, hits, tenant, allowed) == Kept(cat, hits[..n], tenant, allowed) + (if pass then [hits[n]] else [])
      && Dropped(cat, hits, tenant, allowed) == Dropped(cat, hits[..n], tenant, allowed) + (if pass then [] else [hits[n].chunk])
  {
    hide Passes, Allowed;
    PassesIff(cat, hits[|hits| - 1], tenant, allowed);
  }

  lemma {:induction false} KeptFiltered(cat: Catalogue, hits: seq<Hit>, tenant: string, allowed: set<string>) returns (places: seq<nat>)
    ensures Filters(hits, MayPass(cat, tenant, allowed), Kept(cat, hits, tenant, allowed), places)
  {
    hide Passes, MayPass, MayNot;
    if hits == [] {
      places := [];
    } else {
      PassNext(cat, hits, tenant, allowed);
      hide Kept, Filters;
      var n := |hits| - 1;
      var front := KeptFiltered(cat, hits[..n], tenant, allowed);
      FiltersNext(hits, MayPass(cat, tenant, allowed), Kept(cat, hits[..n], tenant, allowed), front);
      places := if Passes(cat, hits[n], tenant, allowed) then front + [n] else front;
      assert Kept(cat, hits[..n], tenant, allowed) + [] == Kept(cat, hits[..n], tenant, allowed);
    }
  }

  lemma {:induction false} DroppedFiltered(cat: Catalogue, hits: seq<Hit>, tenant: string, allowed: set<string>)
    returns (rest: seq<Hit>, places: seq<nat>)
    ensures Filters(hits, MayNot(cat, tenant, allowed), rest, places) && Dropped(cat, hits, tenant, allowed) == Chunks(rest)
  {
    hide Passes, MayPass, MayNot;
    if hits == [] {
      rest, places := [], [];
    } else {
      PassNext(cat, hits, tenant, allowed);
      hide Dropped, Filters;
      var n := |hits| - 1;
      var r, front := DroppedFiltered(cat, hits[..n], tenant, allowed);
      FiltersNext(hits, MayNot(cat, tenant, allowed), r, front);
      ChunksSnoc(r, hits[n]);
      hide Chunks;
      if Passes(cat, hits[n], tenant, allowed) {
        rest, places := r, front;
        assert Chunks(r) + [] == Chunks(r);
      } else {
        rest, places := r + [hits[n]], front + [n];
      }
    }
  }

  /** The hits kept are those that may pass, in their order; the ids dropped are those of the others, in theirs. */
  lemma HitsFiltered(cat: Catalogue, hits: seq<Hit>, tenant: string, allowed: set<string>)
    returns (places: seq<nat>, others: seq<nat>, rest: seq<Hit>)
    ensures Filters(hits, MayPass(cat, tenant, allowed), Kept(cat, hits, tenant, allowed), places)
    ensures Filters(hits, MayNot(cat, tenant, allowed), rest, others) && Dropped(cat, hits, tenant, allowed) == Chunks(rest)
  {
    hide Filters, Kept, Dropped, Chunks;
    places := KeptFiltered(cat, hits, tenant, allowed);
    rest, others := DroppedFiltered(cat, hits, tenant, allowed);
  }

  function Chunks(hits: seq<Hit>): (r: seq<Id>)
    ensures |r| == |hits|
  {
    seq(|hits|, i requires 0 <= i < |hits| => hits[i].chunk)
  }

  lemma ChunksSnoc(hits: seq<Hit>, h: Hit)
    ensures Chunks(hits + [h]) == Chunks(hits) + [h.chunk]
  {
  }

  lemma KeptSnoc(cat: Catalogue, front: seq<Hit>, h: Hit, tenant: string, allowed: set<string>)
    ensures var kept, dropped := Kept(cat, front, tenant, allowed), Dropped(cat, front, tenant, allowed);
      if Passes(cat, h, tenant, allowed) then
        Kept(cat, front + [h], tenant, allowed) == kept + [h] && Dropped(cat, front + [h], tenant, allowed) == dropped
      else
        Kept(cat, front + [h], tenant, allowed) == kept && Dropped(cat, front + [h], tenant, allowed) == dropped + [h.chunk]
  {
    var hits := front + [h];
    assert hits[..|hits| - 1] == front && hits[|hits| - 1] == h;
    hide Passes;
  }

  /** Adding an id to one of two lists adds it to their union. */
  lemma UnionSnoc(kept: seq<Id>, dropped: seq<Id>, all: seq<Id>, id: Id)
    requires multiset(kept) + multiset(dropped) == multiset(all)
    ensures multiset(kept + [id]) + multiset(dropped) == multiset(all + [id])
    ensures multiset(kept) + multiset(dropped + [id]) == multiset(all + [id])
  {
  }

  /** Every hit is either kept or dropped, as often as it occurs. */
  lemma {:induction false} KeptOrDropped(cat: Catalogue, hits: seq<Hit>, tenant: string, allowed: set<string>)
    ensures multiset(Chunks(Kept(cat, hits, tenant, allowed))) + multiset(Dropped(cat, hits, tenant, allowed)) == multiset(Chunks(hits))
  {
    if hits == [] {
      assert Chunks([]) == [];
    } else {
      var n := |hits| - 1;
      var front, h := hits[..n], hits[n];
      assert hits == front + [h];
      KeptOrDropped(cat, front, tenant, allowed);
      KeptSnoc(cat, front, h, tenant, allowed);
      var kept, dropped := Kept(cat, front, tenant, allowed), Dropped(cat, front, tenant, allowed);
      hide Kept, Dropped, Passes, Chunks;
      ChunksSnoc(front, h);
      ChunksSnoc(kept, h);
      UnionSnoc(Chunks(kept), dropped, Chunks(front), h.chunk);
    }
  }

  /** The tables of a file in some reachable state, whatever outsiders did to the index on the way. */
  ghost predicate Reachable(pg: Pg) {
    exists ws, actions, i :: StateOf(ws, actions, i, pg)
  }

  ghost predicate StateOf(ws: seq<World>, actions: seq<Action>, i: nat, pg: Pg) {
    Run(ws, actions) && i <= |actions| && ws[i].pg == pg
  }

  /** What a reader may be shown of a published file: an available chunk of the active version, and all the
      rows of that version are those one staging inserted. */
  ghost predicate Current(pg: Pg, id: Id) {
    && id in pg.chunks && pg.chunks[id].available && pg.chunks[id].version == pg.active.chunk
    && exists s :: id in NewIds(s) && Runs.Whole(pg, s, pg.active.chunk)
  }

  /** Every file's tables are those of some reachable state of that file. */
  ghost predicate InOrder(cat: Catalogue) {
    forall f | f in cat :: cat[f].file == f && Reachable(cat[f])
  }

  /** Surviving: some file's stored chunk, of the searching tenant, whose version is the active one of the file
      that the hit is labelled with. */
  lemma KeptMeans(cat: Catalogue, hits: seq<Hit>, tenant: string, allowed: set<string>, h: Hit)
    requires h in Kept(cat, hits, tenant, allowed)
    ensures h.chunk.ChunkId? && h.chunk.file in cat && h.chunk in cat[h.chunk.file].chunks && cat[h.chunk.file].tenant == tenant
    ensures h.file in allowed && h.file in cat && cat[h.chunk.file].chunks[h.chunk].version == cat[h.file].active.chunk
  {
  }

  /** A stored chunk of a published file is current exactly if it is of the active version. */
  lemma CurrentIff(pg: Pg, id: Id)
    requires Reachable(pg) && pg.flipped && id in pg.chunks
    ensures Current(pg, id) <==> pg.chunks[id].version == pg.active.chunk
  {
    var ws, actions, i :| StateOf(ws, actions, i, pg);
    Runs.RunTables(ws, actions, i);
    if pg.chunks[id].version == pg.active.chunk {
      var j := Runs.StagedBy(ws, actions, i, pg.active.chunk);
      Runs.WholeVersion(ws, actions, j, i);
    }
  }

  /** The hit's label can be relied on: it names the chunk's own file, or one with the same active version while
      the chunk's own file may be searched as well. */
  predicate Reliable(cat: Catalogue, allowed: set<string>, h: Hit) {
    && h.chunk.ChunkId? && h.chunk.file in cat && h.file in cat
    && (h.file == h.chunk.file || (h.chunk.file in allowed && cat[h.chunk.file].active.chunk == cat[h.file].active.chunk))
  }

  /** What a search may show: an available chunk of the active, completely staged version of a file that is
      permitted. */
  ghost predicate Rightful(cat: Catalogue, tenant: string, allowed: set<string>, id: Id) {
    && id.ChunkId? && id.file in cat && id.file in allowed && cat[id.file].tenant == tenant && Current(cat[id.file], id)
  }

  /** However stale or wrong the index is: a hit on a published file's chunk that survives is rightful if and only if
      its label can be relied on. */
  lemma VersionAtomic(cat: Catalogue, hits: seq<Hit>, tenant: string, allowed: set<string>, h: Hit)
    requires InOrder(cat) && h in Kept(cat, hits, tenant, allowed) && cat[h.chunk.file].flipped
    ensures Rightful(cat, tenant, allowed, h.chunk) <==> Reliable(cat, allowed, h)
  {
    KeptMeans(cat, hits, tenant, allowed, h);
    hide Current, Kept;
    CurrentIff(cat[h.chunk.file], h.chunk);
  }

  /** Conversely a reliable hit of a permitted file survives if its chunk is rightful: among reliable hits, those
      of the one active version survive and no others. */
  lemma RightfulKept(cat: Catalogue, hits: seq<Hit>, tenant: string, allowed: set<string>, h: Hit)
    requires InOrder(cat) && h in hits && Reliable(cat, allowed, h) && h.file in allowed && cat[h.chunk.file].flipped
    ensures h in Kept(cat, hits, tenant, allowed) <==> Rightful(cat, tenant, allowed, h.chunk)
  {
    if h.chunk in cat[h.chunk.file].chunks {
      hide Current;
      CurrentIff(cat[h.chunk.file], h.chunk);
    }
  }

  /** Chunks of a file that is not published yet are never rightful, and none of them is available; they survive
      exactly if the label's active version happens to be theirs. Under their own file's label that is version 1,
      the pointers' column default. */
  lemma UnpublishedFence(cat: Catalogue, hits: seq<Hit>, tenant: string, allowed: set<string>, h: Hit)
    requires InOrder(cat) && h in hits && h.chunk.ChunkId? && h.chunk.file in cat && !cat[h.chunk.file].flipped
    ensures !Rightful(cat, tenant, allowed, h.chunk)
    ensures h in Kept(cat, hits, tenant, allowed) <==>
      && h.chunk in cat[h.chunk.file].chunks && cat[h.chunk.file].tenant == tenant && h.file in allowed && h.file in cat
      && h.chunk.version == cat[h.file].active.chunk
    ensures h.file == h.chunk.file && h in Kept(cat, hits, tenant, allowed) ==> h.chunk.version == 1
  {
    var pg := cat[h.chunk.file];
    var ws, actions, i :| StateOf(ws, actions, i, pg);
    Runs.RunTables(ws, actions, i);
  }

  // ---------- hits that get through ----------

  lemma ReachedTables(w: World)
    requires Scenarios.Reached(w)
    ensures Reachable(w.pg)
  {
    var ws, actions :| Scenarios.RunTo(ws, actions, w);
    assert StateOf(ws, actions, |actions|, w.pg);
  }

  /** File a is at version 2, file b at version 1. A document of a's superseded chunk that is labelled with b
      survives a search that may see b only. */
  lemma WrongLabelPasses(a: string, b: string, x: Plain, y: Plain, z: Plain) returns (cat: Catalogue, h: Hit)
    requires a != b
    ensures InOrder(cat) && h == Hit(ChunkId(a, 1, 0), b) && h in Kept(cat, [h], "t", {b})
    ensures cat[a].flipped && cat[b].flipped && !Reliable(cat, {b}, h) && !Rightful(cat, "t", {b}, h.chunk)
  {
    hide Scenarios.Published, Reachable, Scenarios.Reached, Current;
    var wa0 := Scenarios.PublishFirst(a, x);
    var flipped, wa := Scenarios.PublishNext(wa0, a, [x], y);
    var wb := Scenarios.PublishFirst(b, z);
    ReachedTables(wa);
    ReachedTables(wb);
    cat, h := map[a := wa.pg, b := wb.pg], Hit(ChunkId(a, 1, 0), b);
    assert [x] + [y] == [x, y];
    TwoFiles(wa.pg, wb.pg, a, b, x, y, z);
    WrongLabelKept(cat, h, a, b);
    VersionAtomic(cat, [h], "t", {b}, h);
  }

  lemma TwoFiles(pa: Pg, pb: Pg, a: string, b: string, x: string, y: string, z: string)
    requires Scenarios.Published(pa, a, [x, y]) && Scenarios.Published(pb, b, [z])
    ensures pa.file == a && pb.file == b && pa.tenant == "t" && pa.flipped && pb.flipped
    ensures pa.active.chunk == 2 && pb.active.chunk == 1 && ChunkId(a, 1, 0) in pa.chunks && pa.chunks[ChunkId(a, 1, 0)].version == 1
  {
    hide Simhash.Simhash, Scenarios.Numbers;
  }

  lemma WrongLabelKept(cat: Catalogue, h: Hit, a: string, b: string)
    requires a != b && a in cat && b in cat && h == Hit(ChunkId(a, 1, 0), b) && cat[a].tenant == "t"
    requires cat[a].active.chunk == 2 && cat[b].active.chunk == 1 && h.chunk in cat[a].chunks && cat[a].chunks[h.chunk].version == 1
    ensures h in Kept(cat, [h], "t", {b}) && !Reliable(cat, {b}, h)
  {
    assert Passes(cat, h, "t", {b});
  }

  /** A chunk that an ingest has staged and not published survives a search of its file. */
  lemma StagedHitPasses(a: string, x: Plain) returns (cat: Catalogue, h: Hit)
    ensures InOrder(cat) && h == Hit(ChunkId(a, 1, 0), a) && h in Kept(cat, [h], "t", {a})
    ensures !cat[a].flipped && h.chunk in cat[a].chunks && !cat[a].chunks[h.chunk].available
  {
    hide Reachable, Scenarios.Reached, Scenarios.HiddenDoc, Scenarios.Row, Target;
    var w0 := Scenarios.Start(a);
    assert Quiet(w0) && Scenarios.Numbers(0) == [];
    Scenarios.TargetNumber(w0.pg, 0);
    var w := Scenarios.StageOne(w0, x);
    ReachedTables(w);
    cat, h := map[a := w.pg], Hit(ChunkId(a, 1, 0), a);
    Scenarios.RowVersion(1, x);
    assert Passes(cat, h, "t", {a});
    UnpublishedFence(cat, [h], "t", {a}, h);
    hide Passes;
    StagedUnavailable(cat, h);
  }

  lemma StagedUnavailable(cat: Catalogue, h: Hit)
    requires InOrder(cat) && h.chunk.ChunkId? && h.chunk.file in cat && !cat[h.chunk.file].flipped && h.chunk in cat[h.chunk.file].chunks
    ensures !cat[h.chunk.file].chunks[h.chunk].available
  {
    var ws, actions, i :| StateOf(ws, actions, i, cat[h.chunk.file]);
    Runs.RunTables(ws, actions, i);
  }
}
