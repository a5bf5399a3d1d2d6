/** Version garbage collection (app/indexing/gc.py). */
module Gc {
  import opened Schema
  import opened Relay
  import opened Tables
  import opened Pipeline

  const DELETE_BATCH: nat := 500

  predicate LockstepOk(p: Pointers) {
    p.chunk == p.doc && p.summary == p.doc && p.anchor == p.doc
  }

  function Threshold(pg: Pg, retain: nat): int {
    pg.active.chunk - retain + 1
  }

  function AnchorsBelow(pg: Pg, version: int): set<Id> {
    set a | a in pg.anchors && pg.anchors[a].version < version
  }

  /** Removing the anchors, then the summaries with their ON DELETE CASCADE, then chunks and versions. */
  function PurgePg(pg: Pg, threshold: int): Pg {
    var summaries' := pg.summaries - SummariesBelow(pg, threshold);
    var anchors' := pg.anchors - AnchorsBelow(pg, threshold);
    pg.(anchors := map a | a in anchors' && anchors'[a].summary !in SummariesBelow(pg, threshold) :: anchors'[a],
        summaries := summaries',
        chunks := pg.chunks - ChunksBelow(pg, threshold),
        versions := AtLeast(pg.versions, threshold))
  }

  function AtLeast(versions: seq<nat>, threshold: int): seq<nat> {
    if versions == [] then []
    else AtLeast(versions[..|versions| - 1], threshold)
         + if versions[|versions| - 1] < threshold then [] else [versions[|versions| - 1]]
  }

  /** One delete event per slice of at most DELETE_BATCH ids. */
  function DeleteEvents(ids: seq<Id>): seq<Event>
    decreases |ids|
  {
    if |ids| == 0 then []
    else if |ids| <= DELETE_BATCH then [Delete(ids)]
    else [Delete(ids[..DELETE_BATCH])] + DeleteEvents(ids[DELETE_BATCH..])
  }
}
