/** What an incremental ingest compares, chooses and reuses, read off the new chunks and the rows of the previous
    version (app/ingest/diff.py, app/ingest/pipeline.py _build_sources). */
module Diff {
  import opened Schema
  import opened Tables
  import opened Pipeline
  import opened Summarizer
  import opened Incremental

  /** Some chunk of the previous version has this content. */
  ghost predicate Known(pg: Pg, inp: Input, h: Sha256)
    requires Listed(pg, inp)
  {
    exists p | p in inp.prevChunks :: pg.chunks[p].hash == h
  }

  /** It is the one listed last among those of its content, the one a match uses. */
  ghost predicate ListedLast(pg: Pg, inp: Input, id: Id)
    requires Listed(pg, inp)
  {
    exists k | 0 <= k < |inp.prevChunks| ::
      inp.prevChunks[k] == id && forall j | k < j < |inp.prevChunks| && inp.prevChunks[j] in pg.chunks :: pg.chunks[inp.prevChunks[j]].hash != pg.chunks[id].hash
  }

  lemma HashAt(pg: Pg, ids: seq<Id>, i: nat)
    requires (forall id :: id in ids ==> id in pg.chunks) && i < |ids|
    ensures |Hashes(pg, ids)| == |ids| && ids[i] in pg.chunks && Hashes(pg, ids)[i] == pg.chunks[ids[i]].hash
  {
    assert ids[i] in ids;
  }

  lemma LastMatch(pg: Pg, inp: Input, id: Id)
    requires Listed(pg, inp) && ListedLast(pg, inp, id)
    ensures id in inp.prevChunks && id in pg.chunks && pg.chunks[id].hash in PrevMap(pg, inp) && PrevMap(pg, inp)[pg.chunks[id].hash] == id
  {
    var ids := inp.prevChunks;
    var k :| 0 <= k < |ids| && ids[k] == id && forall j | k < j < |ids| && ids[j] in pg.chunks :: pg.chunks[ids[j]].hash != pg.chunks[id].hash;
    HashAt(pg, ids, k);
    forall j | k < j < |ids| ensures Hashes(pg, ids)[j] != Hashes(pg, ids)[k] { HashAt(pg, ids, j); }
    hide Bind, Hashes;
    BindLast(Hashes(pg, ids), ids, k);
  }

  /** Whenever some previous chunk has a content, one is listed last. */
  lemma {:induction false} SomeLast(pg: Pg, ids: seq<Id>, h: Sha256, n: nat) returns (k: nat)
    requires n < |ids| && (forall id :: id in ids ==> id in pg.chunks) && Hashes(pg, ids)[n] == h
    ensures k < |ids| && Hashes(pg, ids)[k] == h && forall j | k < j < |ids| :: Hashes(pg, ids)[j] != h
    decreases |ids| - n
  {
    HashAt(pg, ids, n);
    hide Hashes;
    if j :| n < j < |ids| && Hashes(pg, ids)[j] == h {
      k := SomeLast(pg, ids, h, j);
    } else {
      k := n;
    }
  }

  lemma KnownMapped(pg: Pg, inp: Input, h: Sha256)
    requires Listed(pg, inp) && Known(pg, inp, h)
    ensures h in PrevMap(pg, inp)
  {
    var ids := inp.prevChunks;
    var p :| p in ids && pg.chunks[p].hash == h;
    var i :| 0 <= i < |ids| && ids[i] == p;
    HashAt(pg, ids, i);
    assert Hashes(pg, ids)[i] in Hashes(pg, ids);
  }

  lemma MappedLast(pg: Pg, inp: Input, h: Sha256)
    requires Listed(pg, inp) && h in PrevMap(pg, inp)
    ensures var p := PrevMap(pg, inp)[h]; p in inp.prevChunks && p in pg.chunks && pg.chunks[p].hash == h && ListedLast(pg, inp, p)
  {
    var ids := inp.prevChunks;
    assert Listed(pg, inp);
    var i: nat :| i < |ids| && Hashes(pg, ids)[i] == h && ids[i] == PrevMap(pg, inp)[h];
    hide Hashes, Bind, PrevMap, Listed;
    var k := SomeLast(pg, ids, h, i);
    HashAt(pg, ids, k);
    assert ListedLast(pg, inp, ids[k]) by {
      forall j | k < j < |ids| && ids[j] in pg.chunks ensures pg.chunks[ids[j]].hash != pg.chunks[ids[k]].hash { HashAt(pg, ids, j); }
    }
    hide ListedLast;
    LastMatch(pg, inp, ids[k]);
  }

  /** What the map from contents to previous chunks holds. */
  lemma PrevMeans(pg: Pg, inp: Input, h: Sha256)
    requires Listed(pg, inp)
    ensures h in PrevMap(pg, inp) <==> Known(pg, inp, h)
    ensures h in PrevMap(pg, inp) ==>
      var p := PrevMap(pg, inp)[h]; p in inp.prevChunks && p in pg.chunks && pg.chunks[p].hash == h && ListedLast(pg, inp, p)
  {
    hide PrevMap, ListedLast;
    if h in PrevMap(pg, inp) { MappedLast(pg, inp, h); }
    if Known(pg, inp, h) { KnownMapped(pg, inp, h); }
  }

  // ---------- the mode ----------

  lemma {:induction false} FreshMeans(chunks: seq<NewChunk>, prev: map<Sha256, Id>) returns (places: seq<nat>)
    ensures Filters(chunks, (c: NewChunk) => c.hash !in prev, Fresh(chunks, prev), places)
  {
    if chunks == [] {
      places := [];
    } else {
      var n := |chunks| - 1;
      var front := FreshMeans(chunks[..n], prev);
      places := if chunks[n].hash !in prev then front + [n] else front;
      FiltersNext(chunks, (c: NewChunk) => c.hash !in prev, Fresh(chunks[..n], prev), front);
      assert Fresh(chunks[..n], prev) + [] == Fresh(chunks[..n], prev);
    }
  }

  lemma {:induction false} EligibleMeans(chunks: seq<NewChunk>) returns (places: seq<nat>)
    ensures Filters(chunks, (c: NewChunk) => !c.skip, Eligible(chunks), places)
  {
    if chunks == [] {
      places := [];
    } else {
      var n := |chunks| - 1;
      var front := EligibleMeans(chunks[..n]);
      places := if !chunks[n].skip then front + [n] else front;
      FiltersNext(chunks, (c: NewChunk) => !c.skip, Eligible(chunks[..n]), front);
      assert Eligible(chunks[..n]) + [] == Eligible(chunks[..n]);
    }
  }

  /** The places of the new chunks whose content the previous version does not have. */
  ghost function Changed(pg: Pg, inp: Input): set<nat>
    requires Listed(pg, inp)
  {
    set i | 0 <= i < |inp.chunks| && !Known(pg, inp, inp.chunks[i].hash)
  }

  lemma FreshCount(pg: Pg, inp: Input)
    requires Listed(pg, inp)
    ensures |Fresh(inp.chunks, PrevMap(pg, inp))| == |Changed(pg, inp)|
  {
    var prev := PrevMap(pg, inp);
    var places := FreshMeans(inp.chunks, prev);
    FiltersCount(inp.chunks, (c: NewChunk) => c.hash !in prev, Fresh(inp.chunks, prev), places);
    forall i | 0 <= i < |inp.chunks| ensures inp.chunks[i].hash in prev <==> Known(pg, inp, inp.chunks[i].hash) {
      PrevMeans(pg, inp, inp.chunks[i].hash);
    }
    hide Fresh, PrevMap, Known;
    assert Changed(pg, inp) == Kept(inp.chunks, (c: NewChunk) => c.hash !in prev);
  }

  /** A build is incremental if and only if a version precedes it and the changed chunks are at most the set share of
      the new ones (of none, if the share is not negative). */
  lemma ModeMeans(pg: Pg, inp: Input)
    requires Listed(pg, inp)
    ensures IsIncremental(pg, inp) <==>
      && (exists v :: v in pg.versions && v >= 1)
      && if inp.chunks == [] then 0.0 <= inp.minChangedRatio
         else |Changed(pg, inp)| as real <= inp.minChangedRatio * |inp.chunks| as real
  {
    hide Fresh, PrevMap, Changed, Target, IsIncremental, Listed, Known;
    FreshCount(pg, inp);
    ModeParts(pg, inp);
    HasVersion(pg);
    if inp.chunks != [] { Share(|Changed(pg, inp)|, |inp.chunks|, inp.minChangedRatio); }
  }

  lemma ModeParts(pg: Pg, inp: Input)
    requires Listed(pg, inp)
    ensures IsIncremental(pg, inp) <==>
      && Target(pg) > 1
      && if inp.chunks == [] then 0.0 <= inp.minChangedRatio
         else |Fresh(inp.chunks, PrevMap(pg, inp))| as real / |inp.chunks| as real <= inp.minChangedRatio
  {
    hide Fresh, PrevMap, Target, Listed;
  }

  lemma HasVersion(pg: Pg)
    ensures Target(pg) > 1 <==> exists v :: v in pg.versions && v >= 1
  {
  }

  lemma Share(x: nat, n: nat, r: real)
    requires n > 0
    ensures x as real / n as real <= r <==> x as real <= r * n as real
  {
    var q := x as real / n as real;
    assert q * n as real == x as real;
    if q <= r { Scaled(q, r, n as real); } else { Scaled(r, q, n as real); }
  }

  lemma Scaled(a: real, b: real, n: real)
    requires n > 0.0
    ensures a < b ==> a * n < b * n
    ensures a <= b ==> a * n <= b * n
  {
  }

  // ---------- which summaries are reused ----------

  /** Its content is that of some new chunk, and it is the previous chunk that a match with this content uses. */
  ghost predicate Unchanged(pg: Pg, inp: Input, id: Id)
    requires Listed(pg, inp)
  {
    ListedLast(pg, inp, id) && id in pg.chunks && exists i | 0 <= i < |inp.chunks| :: inp.chunks[i].hash == pg.chunks[id].hash
  }

  lemma {:induction false} MapCovers(matched: map<Sha256, Id>, chunks: seq<NewChunk>, i: nat)
    requires i < |chunks| && chunks[i].hash in matched
    ensures matched[chunks[i].hash] in OldToNew(matched, chunks)
  {
    var n := |chunks| - 1;
    if i < n { MapCovers(matched, chunks[..n], i); }
  }

  lemma MapMeans(pg: Pg, inp: Input, s: Id)
    requires Listed(pg, inp)
    ensures s in OldToNew(Matched(inp.chunks, PrevMap(pg, inp)), inp.chunks) <==> Unchanged(pg, inp, s)
  {
    var prev := PrevMap(pg, inp);
    var matched := Matched(inp.chunks, prev);
    if s in OldToNew(matched, inp.chunks) {
      var i := RemapSource(matched, inp.chunks, s);
      PrevMeans(pg, inp, inp.chunks[i].hash);
    }
    if Unchanged(pg, inp, s) {
      LastMatch(pg, inp, s);
      var i :| 0 <= i < |inp.chunks| && inp.chunks[i].hash == pg.chunks[s].hash;
      assert inp.chunks[i].hash in matched;
      MapCovers(matched, inp.chunks, i);
    }
  }

  /** A previous summary is reused if and only if it has sources and all of them are unchanged. */
  lemma ReusableIff(pg: Pg, inp: Input, row: SummaryRow)
    requires Listed(pg, inp)
    ensures Reusable(row, OldToNew(Matched(inp.chunks, PrevMap(pg, inp)), inp.chunks))
      <==> row.sources != [] && forall s | s in row.sources :: Unchanged(pg, inp, s)
  {
    forall s | s in row.sources ensures s in OldToNew(Matched(inp.chunks, PrevMap(pg, inp)), inp.chunks) <==> Unchanged(pg, inp, s) {
      MapMeans(pg, inp, s);
    }
    hide OldToNew, Matched, PrevMap, Unchanged;
  }

  // ---------- what is staged as summaries ----------

  /** Newly written summaries: as the model replied, with the embedding of their text. */
  ghost predicate Written(items: seq<SummaryItem>, raw: seq<RawItem>) {
    |items| == |raw| && forall i | 0 <= i < |raw| :: items[i] == SummaryItem(raw[i].text, raw[i].sources, raw[i].heading, Some(Embed(raw[i].text)))
  }

  /** Reused summaries: text and heading of the row, the vector of its document, and each source replaced by the last
      new chunk of its content. */
  ghost predicate Copied(pg: Pg, es: Index, inp: Input, it: SummaryItem, id: Id)
    requires Listed(pg, inp)
  {
    && id in pg.summaries && it.text == pg.summaries[id].text && it.heading == pg.summaries[id].heading
    && it.vec == (if id in es then es[id].vec else None)
    && |it.sources| == |pg.summaries[id].sources|
    && forall i | 0 <= i < |it.sources| :: LastNew(pg, inp, pg.summaries[id].sources[i], it.sources[i])
  }

  ghost predicate LastNew(pg: Pg, inp: Input, s: Id, id: Id) {
    s in pg.chunks && exists i | 0 <= i < |inp.chunks| ::
      && inp.chunks[i].id == id && inp.chunks[i].hash == pg.chunks[s].hash
      && forall j | i < j < |inp.chunks| :: inp.chunks[j].hash != pg.chunks[s].hash
  }

  lemma LastNewMeans(pg: Pg, inp: Input, s: Id)
    requires Listed(pg, inp) && s in OldToNew(Matched(inp.chunks, PrevMap(pg, inp)), inp.chunks)
    ensures LastNew(pg, inp, s, OldToNew(Matched(inp.chunks, PrevMap(pg, inp)), inp.chunks)[s])
  {
    var prev := PrevMap(pg, inp);
    var matched := Matched(inp.chunks, prev);
    var i := RemapSource(matched, inp.chunks, s);
    PrevMeans(pg, inp, inp.chunks[i].hash);
    forall j | i < j < |inp.chunks| ensures inp.chunks[j].hash != pg.chunks[s].hash {
      SameMatch(inp.chunks, prev, s, pg.chunks[s].hash, j);
    }
  }

  lemma SameMatch(chunks: seq<NewChunk>, prev: map<Sha256, Id>, s: Id, h: Sha256, j: nat)
    requires j < |chunks| && h in prev && prev[h] == s
    ensures chunks[j].hash == h ==> chunks[j].hash in Matched(chunks, prev) && Matched(chunks, prev)[chunks[j].hash] == s
  {
  }

  lemma CopiedItem(pg: Pg, es: Index, inp: Input, id: Id)
    requires Listed(pg, inp) && id in pg.summaries
    requires Reusable(pg.summaries[id], OldToNew(Matched(inp.chunks, PrevMap(pg, inp)), inp.chunks))
    ensures Copied(pg, es, inp, ReusedItem(es, id, pg.summaries[id], OldToNew(Matched(inp.chunks, PrevMap(pg, inp)), inp.chunks)), id)
  {
    var row := pg.summaries[id];
    forall i | 0 <= i < |row.sources|
      ensures LastNew(pg, inp, row.sources[i], OldToNew(Matched(inp.chunks, PrevMap(pg, inp)), inp.chunks)[row.sources[i]])
    {
      assert row.sources[i] in row.sources;
      LastNewMeans(pg, inp, row.sources[i]);
    }
    hide OldToNew, Matched, PrevMap, LastNew;
  }

  ghost function Reused(pg: Pg, inp: Input): Id -> bool
    requires Listed(pg, inp)
  {
    (id: Id) => id in pg.summaries && pg.summaries[id].sources != [] && forall s | s in pg.summaries[id].sources :: Unchanged(pg, inp, s)
  }

  ghost predicate Copies(pg: Pg, es: Index, inp: Input, items: seq<SummaryItem>, ids: seq<Id>)
    requires Listed(pg, inp)
  {
    |items| == |ids| && forall i | 0 <= i < |ids| :: Copied(pg, es, inp, items[i], ids[i])
  }

  lemma {:induction false} ReusedMean(pg: Pg, es: Index, inp: Input, ids: seq<Id>) returns (kept: seq<Id>, places: seq<nat>)
    requires Listed(pg, inp) && forall id :: id in ids ==> id in pg.summaries
    ensures Filters(ids, Reused(pg, inp), kept, places)
    ensures Copies(pg, es, inp, ReusedItems(pg, es, ids, OldToNew(Matched(inp.chunks, PrevMap(pg, inp)), inp.chunks)), kept)
  {
    hide OldToNew, Matched, PrevMap, Copied, Unchanged, Reusable, ReusedItem;
    if ids == [] {
      kept, places := [], [];
    } else {
      var n := |ids| - 1;
      var m := OldToNew(Matched(inp.chunks, PrevMap(pg, inp)), inp.chunks);
      assert ids[n] in ids;
      var kept0, places0 := ReusedMean(pg, es, inp, ids[..n]);
      ReusableIff(pg, inp, pg.summaries[ids[n]]);
      FiltersNext(ids, Reused(pg, inp), kept0, places0);
      assert Reused(pg, inp)(ids[n]) <==> Reusable(pg.summaries[ids[n]], m);
      hide Filters, Reused;
      if Reusable(pg.summaries[ids[n]], m) {
        kept, places := kept0 + [ids[n]], places0 + [n];
        CopiedItem(pg, es, inp, ids[n]);
      } else {
        kept, places := kept0, places0;
        assert ReusedItems(pg, es, ids[..n], m) + [] == ReusedItems(pg, es, ids[..n], m);
      }
    }
  }

  /** The summaries of a build. Incrementally: the reusable previous ones, in the order of their listing, and then those
      newly written for the changed chunks that enter the windows, if any chunk has changed. In full: those written for
      all such chunks. None if summaries are switched off. */
  lemma ItemsMean(pg: Pg, es: Index, inp: Input)
    returns (kept: seq<Id>, places: seq<nat>, reused: seq<SummaryItem>, built: seq<SummaryItem>, news: seq<NewChunk>, at: seq<nat>)
    requires Listed(pg, inp)
    ensures var items := BuildItems(pg, es, inp);
      if !inp.enabled then items == []
      else if !IsIncremental(pg, inp) then Written(items, FileSummaries(Eligible(inp.chunks), inp.minTokens, inp.llm))
      else
        && items == reused + built
        && Filters(inp.prevSummaries, Reused(pg, inp), kept, places) && Copies(pg, es, inp, reused, kept)
        && Filters(inp.chunks, (c: NewChunk) => !Known(pg, inp, c.hash), news, at)
        && (if news == [] then built == [] else Written(built, FileSummaries(Eligible(news), inp.minTokens, inp.llm)))
  {
    hide FileSummaries, Eligible, IsIncremental, Reused, Copies, Filters, ReusedItems, Fresh, OldToNew, Matched, PrevMap, Known;
    var prev := PrevMap(pg, inp);
    kept, places := ReusedMean(pg, es, inp, inp.prevSummaries);
    reused := ReusedItems(pg, es, inp.prevSummaries, OldToNew(Matched(inp.chunks, prev), inp.chunks));
    news := Fresh(inp.chunks, prev);
    at := FreshKnown(pg, inp);
    built := if news != [] then EmbedItems(FileSummaries(Eligible(news), inp.minTokens, inp.llm)) else [];
  }

  lemma FreshKnown(pg: Pg, inp: Input) returns (places: seq<nat>)
    requires Listed(pg, inp)
    ensures Filters(inp.chunks, (c: NewChunk) => !Known(pg, inp, c.hash), Fresh(inp.chunks, PrevMap(pg, inp)), places)
  {
    var prev := PrevMap(pg, inp);
    places := FreshMeans(inp.chunks, prev);
    forall i | 0 <= i < |inp.chunks| ensures inp.chunks[i].hash in prev <==> Known(pg, inp, inp.chunks[i].hash) {
      PrevMeans(pg, inp, inp.chunks[i].hash);
    }
    hide Fresh, PrevMap, Known;
  }
}
