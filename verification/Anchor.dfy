/** Stable anchors (app/retrieval/anchor.py): choosing a centre among the surviving source chunks, and
    relocating by fingerprint when none survives. */
module Anchor {
  import opened Schema
  import opened Tables
  import opened Pipeline
  import opened Protocol
  import opened TableInvariant
  import opened Simhash
  import Runs

  const RELOCATE_HAMMING: nat := 8

  function Available(pg: Pg, tenant: string): set<Id> {
    set id | id in pg.chunks && pg.chunks[id].available && tenant == pg.tenant
  }

  function Surviving(pg: Pg, tenant: string, sources: seq<Id>): set<Id> {
    set id | id in sources && id in Available(pg, tenant)
  }

  ghost predicate Stored(pg: Pg, rows: seq<Id>) {
    forall id :: id in rows ==> id in pg.chunks
  }

  // ---------- choosing a centre ----------

  /** Number of distinct query bigrams that the chunk contains. */
  function Overlap(pg: Pg, query: string, id: Id): nat
    requires id in pg.chunks
  {
    |(set f | f in Features(query)) * (set f | f in Features(pg.chunks[id].content))|
  }

  /** The different bigrams of the query that occur in the text. */
  function SharedGrams(query: string, text: string): set<string> {
    var q, t := Normalise(query), Normalise(text);
    set i | 0 <= i < GramCount(q) && Occurs(Gram(q, i), t) :: Gram(q, i)
  }

  lemma OverlapMeans(pg: Pg, query: string, id: Id)
    requires id in pg.chunks
    ensures Overlap(pg, query, id) == |SharedGrams(query, pg.chunks[id].content)|
  {
    var q, t := Normalise(query), Normalise(pg.chunks[id].content);
    FeaturesAre(q);
    var a, b := set f | f in FeaturesOf(q), set f | f in FeaturesOf(t);
    hide FeaturesOf, Gram, Occurs;
    forall f ensures f in a * b <==> f in SharedGrams(query, pg.chunks[id].content) {
      FeatureIff(t, f);
      if f in a * b {
        var i :| 0 <= i < |FeaturesOf(q)| && FeaturesOf(q)[i] == f;
        assert f == Gram(q, i);
      }
    }
    assert a * b == SharedGrams(query, pg.chunks[id].content);
  }

  function Score(pg: Pg, query: string, id: Id): nat
    requires id in pg.chunks
  {
    |SharedGrams(query, pg.chunks[id].content)|
  }

  /** Row k is the first that shares the most bigrams with the query. */
  ghost predicate CenterAt(pg: Pg, query: string, rows: seq<Id>, k: nat)
    requires Stored(pg, rows)
  {
    && k < |rows|
    && (forall j | 0 <= j < k :: Score(pg, query, rows[j]) < Score(pg, query, rows[k]))
    && (forall j | k < j < |rows| :: Score(pg, query, rows[j]) <= Score(pg, query, rows[k]))
  }

  lemma OverlapScore(pg: Pg, query: string, id: Id)
    requires id in pg.chunks
    ensures Overlap(pg, query, id) == Score(pg, query, id)
  {
    OverlapMeans(pg, query, id);
  }

  ghost predicate IsCenter(pg: Pg, query: string, rows: seq<Id>, best: Option<Id>)
    requires Stored(pg, rows)
  {
    if best.None? then rows == [] else exists k: nat :: CenterAt(pg, query, rows, k) && best.value == rows[k]
  }

  method SelectCenter(pg: Pg, query: string, rows: seq<Id>) returns (best: Option<Id>)
    requires Stored(pg, rows)
    ensures IsCenter(pg, query, rows, best)
  {
    hide Overlap, Score;
    best := None;
    var bestScore: int := -1;
    ghost var k: nat := 0;
    for i := 0 to |rows|
      invariant best.None? <==> i == 0
      invariant best.None? ==> bestScore == -1
      invariant best.Some? ==> k < i && best.value == rows[k] && bestScore == Score(pg, query, rows[k])
      invariant best.Some? ==> forall j | 0 <= j < k :: Score(pg, query, rows[j]) < Score(pg, query, rows[k])
      invariant best.Some? ==> forall j | k < j < i :: Score(pg, query, rows[j]) <= Score(pg, query, rows[k])
    {
      assert Overlap(pg, query, rows[i]) == Score(pg, query, rows[i]) by { OverlapScore(pg, query, rows[i]); }
      var score := Overlap(pg, query, rows[i]);
      if score > bestScore {
        best, bestScore, k := Some(rows[i]), score, i;
      }
    }
    assert best.Some? ==> CenterAt(pg, query, rows, k);
  }

  // ---------- relocation ----------

  predicate IsHex(s: string) {
    forall c :: c in s ==> c in DIGITS
  }

  /** Stored chunk fingerprints are signed 64-bit numbers and anchor fingerprints are hex. */
  ghost predicate Encoded(pg: Pg) {
    && (forall id | id in pg.chunks :: -TWO63 <= pg.chunks[id].sim < TWO63)
    && (forall a | a in pg.anchors && pg.anchors[a].fingerprint.Some? :: IsHex(pg.anchors[a].fingerprint.value))
  }

  function Distance(pg: Pg, hex: string, id: Id): nat
    requires IsHex(hex) && id in pg.chunks && -TWO63 <= pg.chunks[id].sim < TWO63
  {
    HammingHex(hex, pg.chunks[id].sim)
  }

  /** Row k is the first of the nearest. */
  ghost predicate NearestAt(pg: Pg, hex: string, rows: seq<Id>, k: nat)
    requires IsHex(hex) && Encoded(pg) && Stored(pg, rows)
  {
    && k < |rows|
    && (forall j | 0 <= j < k :: Distance(pg, hex, rows[k]) < Distance(pg, hex, rows[j]))
    && (forall j | k < j < |rows| :: Distance(pg, hex, rows[k]) <= Distance(pg, hex, rows[j]))
  }

  /** The first nearest row within the threshold; none iff every row is farther away. */
  ghost predicate IsNearest(pg: Pg, hex: string, rows: seq<Id>, best: Option<Id>)
    requires IsHex(hex) && Encoded(pg) && Stored(pg, rows)
  {
    if best.None? then forall j | 0 <= j < |rows| :: Distance(pg, hex, rows[j]) > RELOCATE_HAMMING
    else exists k: nat :: NearestAt(pg, hex, rows, k) && best.value == rows[k] && Distance(pg, hex, rows[k]) <= RELOCATE_HAMMING
  }

  method FindNearest(pg: Pg, hex: string, rows: seq<Id>) returns (best: Option<Id>)
    requires IsHex(hex) && Encoded(pg) && Stored(pg, rows)
    ensures IsNearest(pg, hex, rows, best)
  {
    hide Distance, IsHex;
    best := None;
    var bestDistance := RELOCATE_HAMMING + 1;
    ghost var k: nat := 0;
    for i := 0 to |rows|
      invariant best.None? ==> bestDistance == RELOCATE_HAMMING + 1
      invariant best.None? ==> forall j | 0 <= j < i :: Distance(pg, hex, rows[j]) > RELOCATE_HAMMING
      invariant best.Some? ==> k < i && best.value == rows[k] && bestDistance == Distance(pg, hex, rows[k]) <= RELOCATE_HAMMING
      invariant best.Some? ==> forall j | 0 <= j < k :: Distance(pg, hex, rows[k]) < Distance(pg, hex, rows[j])
      invariant best.Some? ==> forall j | k < j < i :: Distance(pg, hex, rows[k]) <= Distance(pg, hex, rows[j])
    {
      var d := Distance(pg, hex, rows[i]);
      if d <= RELOCATE_HAMMING && d < bestDistance {
        best, bestDistance, k := Some(rows[i]), d, i;
      }
    }
    assert best.Some? ==> NearestAt(pg, hex, rows, k);
  }

  // ---------- resolution ----------

  datatype Resolution = Here(chunk: Id) | Moved(chunk: Id) | Stale

  /** The rows the three queries return: surviving sources, one anchor of the summary, available chunks. */
  datatype Queries = Queries(sources: seq<Id>, anchor: Option<Id>, chunks: seq<Id>)

  ghost predicate Answers(pg: Pg, tenant: string, sources: seq<Id>, summary: Id, q: Queries) {
    && Lists(q.sources, Surviving(pg, tenant, sources)) && Lists(q.chunks, Available(pg, tenant))
    && (if q.anchor.None? then forall a :: a in pg.anchors ==> pg.anchors[a].summary != summary
        else q.anchor.value in pg.anchors && pg.anchors[q.anchor.value].summary == summary)
  }

  lemma AnswersStored(pg: Pg, tenant: string, sources: seq<Id>, summary: Id, q: Queries)
    requires Answers(pg, tenant, sources, summary, q)
    ensures Stored(pg, q.sources) && Stored(pg, q.chunks)
  {
    forall id | id in q.sources ensures id in pg.chunks { assert id in Surviving(pg, tenant, sources); }
    forall id | id in q.chunks ensures id in pg.chunks { assert id in Available(pg, tenant); }
  }

  function StoredFingerprint(pg: Pg, q: Queries): string
    requires q.anchor.Some? ==> q.anchor.value in pg.anchors
  {
    if q.anchor.None? || pg.anchors[q.anchor.value].fingerprint.None? then "" else pg.anchors[q.anchor.value].fingerprint.value
  }

  ghost predicate Resolves(pg: Pg, tenant: string, sources: seq<Id>, summary: Id, query: string, q: Queries, r: Resolution)
    requires Encoded(pg) && Answers(pg, tenant, sources, summary, q)
  {
    AnswersStored(pg, tenant, sources, summary, q);
    var hex := StoredFingerprint(pg, q);
    match r
    case Here(c) => IsCenter(pg, query, q.sources, Some(c))
    case Moved(c) => q.sources == [] && hex != "" && IsNearest(pg, hex, q.chunks, Some(c))
    case Stale => q.sources == [] && (hex == "" || IsNearest(pg, hex, q.chunks, None))
  }

  /** The summary's anchors now point at the chunk and are marked so; nothing else has changed. */
  ghost predicate Relocates(pg: Pg, pg': Pg, summary: Id, chunk: Id) {
    && pg' == pg.(anchors := pg'.anchors) && pg'.anchors.Keys == pg.anchors.Keys
    && forall a | a in pg.anchors ::
         if pg.anchors[a].summary == summary
         then pg'.anchors[a] == pg.anchors[a].(target := Some(chunk), validity := Relocated)
         else pg'.anchors[a] == pg.anchors[a]
  }

  class AnchorResolver {
    var pg: Pg

    constructor (pg: Pg)
      ensures this.pg == pg
    {
      this.pg := pg;
    }

    /** `saved` is whether the best-effort update of the anchor went through. */
    method Resolve(tenant: string, sources: seq<Id>, summary: Id, query: string, q: Queries, saved: bool)
      returns (r: Resolution)
      requires Encoded(pg) && Answers(pg, tenant, sources, summary, q)
      modifies this
      ensures Resolves(old(pg), tenant, sources, summary, query, q, r)
      ensures pg == if r.Moved? && saved then RelocatePg(old(pg), summary, r.chunk) else old(pg)
      ensures r.Moved? && saved ==> Relocates(old(pg), pg, summary, r.chunk)
    {
      AnswersStored(pg, tenant, sources, summary, q);
      var center := SelectCenter(pg, query, q.sources);
      if center.Some? {
        return Here(center.value);
      }
      var hex := StoredFingerprint(pg, q);
      if hex == "" {
        return Stale;
      }
      var found := FindNearest(pg, hex, q.chunks);
      if found.None? {
        return Stale;
      }
      r := Moved(found.value);
      if saved { pg := RelocatePg(pg, summary, found.value); }
    }
  }

  // ---------- resolution in reachable states ----------

  /** The tables of every reachable state are encoded as resolution needs them. */
  lemma TablesEncoded(w: World)
    requires TablesOk(w)
    ensures Encoded(w.pg)
  {
    forall a | a in w.pg.anchors && w.pg.anchors[a].fingerprint.Some? ensures IsHex(w.pg.anchors[a].fingerprint.value) {
      assert AnchorOk(w.pg, w.pg.anchors[a]);
    }
  }

  /** How far a chunk's text is from the text an anchor was taken from. */
  function Gap(pg: Pg, text: string, id: Id): nat
    requires id in pg.chunks
  {
    Hamming(Simhash.Simhash(text), Simhash.Simhash(pg.chunks[id].content))
  }

  ghost predicate AnyNear(pg: Pg, tenant: string, text: string) {
    exists id :: id in Available(pg, tenant) && Gap(pg, text, id) <= RELOCATE_HAMMING
  }

  ghost predicate Closest(pg: Pg, tenant: string, text: string, best: Id) {
    best in Available(pg, tenant) && forall id :: id in Available(pg, tenant) ==> Gap(pg, text, best) <= Gap(pg, text, id)
  }

  /** What the stored encodings measure is the distance of the two texts. */
  lemma TextDistance(w: World, text: string, id: Id)
    requires TablesOk(w) && id in w.pg.chunks
    ensures IsHex(SimhashHex(text)) && -TWO63 <= w.pg.chunks[id].sim < TWO63
    ensures Distance(w.pg, SimhashHex(text), id) == Gap(w.pg, text, id)
  {
    StoredDistance(text, w.pg.chunks[id].content);
  }

  /** One query and its outcome, against tables as reachable states have them. */
  ghost predicate Resolved(w: World, tenant: string, sources: seq<Id>, summary: Id, query: string, q: Queries, r: Resolution) {
    && TablesOk(w) && summary in w.pg.summaries && q.anchor.Some?
    && Encoded(w.pg) && Answers(w.pg, tenant, sources, summary, q) && Resolves(w.pg, tenant, sources, summary, query, q, r)
  }

  /** What resolving a summary's anchor means in any reachable state: it moves, to an available chunk closest
      to the text the anchor was taken from, iff no source survives and some chunk is near enough. */
  lemma ResolvedNearest(w: World, tenant: string, sources: seq<Id>, summary: Id, query: string, q: Queries, r: Resolution)
    requires Resolved(w, tenant, sources, summary, query, q, r)
    ensures var pg, text := w.pg, FirstContent(w.pg, summary);
      && (r.Here? <==> Surviving(pg, tenant, sources) != {})
      && (r.Moved? <==> (Surviving(pg, tenant, sources) == {} && text != "" && AnyNear(pg, tenant, text)))
      && (r.Moved? ==> Closest(pg, tenant, text, r.chunk))
  {
    var pg, text := w.pg, FirstContent(w.pg, summary);
    AnswersStored(pg, tenant, sources, summary, q);
    assert AnchorOk(pg, pg.anchors[q.anchor.value]);
    var hex := StoredFingerprint(pg, q);
    assert hex == if text == "" then "" else SimhashHex(text);
    assert (Surviving(pg, tenant, sources) == {}) <==> q.sources == [] by {
      if q.sources != [] { assert q.sources[0] in q.sources; }
    }
    if text != "" && q.sources == [] {
      forall id | id in pg.chunks ensures Distance(pg, hex, id) == Gap(pg, text, id) {
        TextDistance(w, text, id);
      }
      hide Distance, Gap, TablesOk, Encoded, SimhashHex;
      NearestMeans(pg, tenant, hex, q.chunks, if r.Moved? then Some(r.chunk) else None);
    }
  }

  lemma NearestMeans(pg: Pg, tenant: string, hex: string, rows: seq<Id>, best: Option<Id>)
    requires IsHex(hex) && Encoded(pg) && Stored(pg, rows) && Lists(rows, Available(pg, tenant)) && IsNearest(pg, hex, rows, best)
    ensures best.Some? <==> exists id :: id in Available(pg, tenant) && Distance(pg, hex, id) <= RELOCATE_HAMMING
    ensures best.Some? ==> best.value in Available(pg, tenant)
    ensures best.Some? ==> forall id :: id in Available(pg, tenant) ==> Distance(pg, hex, best.value) <= Distance(pg, hex, id)
  {
    hide Distance;
    forall id | id in Available(pg, tenant)
      ensures exists j :: 0 <= j < |rows| && rows[j] == id
    {
      assert id in rows;
    }
  }

  /** The same in terms of rows and bits: a source counts as surviving, and a chunk as a place to move to, if it is
      available and of the tenant; near means that at most 8 of the 64 bits of the two fingerprints differ. */
  lemma ResolvedMeans(pg: Pg, tenant: string, sources: seq<Id>, text: string)
    ensures Surviving(pg, tenant, sources) != {} <==>
      exists id :: id in sources && id in pg.chunks && pg.chunks[id].available && tenant == pg.tenant
    ensures AnyNear(pg, tenant, text) <==>
      exists id :: id in pg.chunks && pg.chunks[id].available && tenant == pg.tenant && Apart(pg, text, id) <= 8
    ensures forall best :: Closest(pg, tenant, text, best) <==>
      && best in pg.chunks && pg.chunks[best].available && tenant == pg.tenant
      && forall id | id in pg.chunks && pg.chunks[id].available :: Apart(pg, text, best) <= Apart(pg, text, id)
  {
    forall id | id in pg.chunks ensures Gap(pg, text, id) == Apart(pg, text, id) { GapMeans(pg, text, id); }
    assert forall id :: id in Available(pg, tenant) <==> id in pg.chunks && pg.chunks[id].available && tenant == pg.tenant;
    assert forall id :: id in Surviving(pg, tenant, sources) <==> id in sources && id in Available(pg, tenant);
    hide Gap, Apart, Available, Surviving;
    assert Surviving(pg, tenant, sources) != {} <==> exists id :: id in Surviving(pg, tenant, sources);
  }

  /** In how many bits the fingerprints of the two texts differ. */
  function Apart(pg: Pg, text: string, id: Id): nat
    requires id in pg.chunks
  {
    |DifferentBits(Simhash.Simhash(text), Simhash.Simhash(pg.chunks[id].content), 64)|
  }

  lemma GapMeans(pg: Pg, text: string, id: Id)
    requires id in pg.chunks
    ensures Gap(pg, text, id) == Apart(pg, text, id)
  {
    SignsBound(Features(text), 64, 64);
    SignsBound(Features(pg.chunks[id].content), 64, 64);
    HammingMeans(Simhash.Simhash(text), Simhash.Simhash(pg.chunks[id].content), 64);
  }

  /** An anchor whose text survives verbatim, up to whitespace and case, moves to a chunk at distance 0. */
  lemma VerbatimRelocates(w: World, tenant: string, sources: seq<Id>, summary: Id, query: string, q: Queries, r: Resolution, id: Id)
    requires Resolved(w, tenant, sources, summary, query, q, r)
    requires Surviving(w.pg, tenant, sources) == {} && id in Available(w.pg, tenant) && FirstContent(w.pg, summary) != ""
    requires Normalise(w.pg.chunks[id].content) == Normalise(FirstContent(w.pg, summary))
    ensures r.Moved? && r.chunk in w.pg.chunks && Gap(w.pg, FirstContent(w.pg, summary), r.chunk) == 0
  {
    var text := FirstContent(w.pg, summary);
    assert Gap(w.pg, text, id) == 0 by {
      HammingMetric(Simhash.Simhash(text), Simhash.Simhash(w.pg.chunks[id].content), 0);
    }
    hide Gap;
    ResolvedNearest(w, tenant, sources, summary, query, q, r);
  }

  /** So does one whose surviving text differs in one character, if at most eight bits of the fingerprint are
      within four bigrams of flipping; it then moves within that many bits. */
  lemma OneCharacterRelocates(w: World, tenant: string, sources: seq<Id>, summary: Id, query: string, q: Queries, r: Resolution,
                              id: Id, p: nat, c: char)
    requires Resolved(w, tenant, sources, summary, query, q, r)
    requires Surviving(w.pg, tenant, sources) == {} && id in Available(w.pg, tenant) && FirstContent(w.pg, summary) != ""
    requires p < |Normalise(FirstContent(w.pg, summary))|
    requires Normalise(w.pg.chunks[id].content) == Normalise(FirstContent(w.pg, summary))[p := c]
    requires WeakBits(Features(FirstContent(w.pg, summary)), 4, 0, 64) <= RELOCATE_HAMMING
    ensures r.Moved? && r.chunk in w.pg.chunks
    ensures Gap(w.pg, FirstContent(w.pg, summary), r.chunk) <= WeakBits(Features(FirstContent(w.pg, summary)), 4, 0, 64)
  {
    var text := FirstContent(w.pg, summary);
    assert Gap(w.pg, text, id) <= WeakBits(Features(text), 4, 0, 64) by {
      OneCharacterStable(Normalise(text), p, c);
    }
    hide Gap, WeakBits;
    ResolvedNearest(w, tenant, sources, summary, query, q, r);
  }

  /** The tables of every state of every run allow resolution, and keep allowing it after the update. */
  lemma ResolvesInRuns(ws: seq<World>, actions: seq<Action>, i: nat, summary: Id, target: Id)
    requires Run(ws, actions) && i <= |actions|
    ensures TablesOk(ws[i]) && Encoded(ws[i].pg)
    ensures TablesOk(ws[i].(pg := RelocatePg(ws[i].pg, summary, target)))
  {
    Runs.RunTables(ws, actions, i);
    TablesEncoded(ws[i]);
    RelocateKeeps(ws[i], summary, target);
  }
}
