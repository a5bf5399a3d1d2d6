/** Delivering outbox events to the index (app/indexing/relay.py). The functions say what one delivery
    attempt leaves behind when Elasticsearch stops answering after `calls` documents; the lemmas say why
    at-least-once delivery in any order, with half-applied events and lost marks, still converges. */
module Relay {
  import opened Schema
  import opened Tables

  /** Whether deleting a missing document raises, as with the client of app/es.py, or is a no-op, as in
      app/es_memory.py. */
  const STRICT_DELETE: bool

  // ---------- one event ----------

  predicate Mentions(e: Event, id: Id) {
    match e
    case IndexDoc(i, _) => id == i
    case SetAvailable(ids, _) => id in ids
    case Delete(ids) => id in ids
    case Unknown(_) => false
  }

  /** What a fully delivered event does to a document it mentions. */
  function Effect(e: Event, cur: Option<Doc>): Option<Doc> {
    match e
    case IndexDoc(_, source) => Some(source)
    case SetAvailable(_, v) => if cur.Some? then Some(cur.value.(visible := v)) else None
    case Delete(_) => None
    case Unknown(_) => cur
  }

  function Size(e: Event): nat {
    match e
    case IndexDoc(_, _) => 1
    case SetAvailable(ids, _) => |ids|
    case Delete(ids) => |ids|
    case Unknown(_) => 0
  }

  /** Read-modify-write each id in turn; a missing document or an outage raises and stops. */
  function SetAll(es: Index, ids: seq<Id>, v: bool, calls: nat): (Index, bool) {
    if ids == [] then (es, true)
    else if calls == 0 || ids[0] !in es then (es, false)
    else SetAll(es[ids[0] := es[ids[0]].(visible := v)], ids[1..], v, calls - 1)
  }

  function DeleteAll(es: Index, ids: seq<Id>, calls: nat): (Index, bool) {
    if ids == [] then (es, true)
    else if calls == 0 || (STRICT_DELETE && ids[0] !in es) then (es, false)
    else DeleteAll(es - {ids[0]}, ids[1..], calls - 1)
  }

  /** The index after one delivery attempt, and whether the attempt raised nothing. */
  function Publish(e: Event, es: Index, calls: nat): (Index, bool) {
    match e
    case IndexDoc(id, source) => if calls == 0 then (es, false) else (es[id := source], true)
    case SetAvailable(ids, v) => SetAll(es, ids, v, calls)
    case Delete(ids) => DeleteAll(es, ids, calls)
    case Unknown(_) => (es, false)
  }

  // ---------- outbox marks ----------

  function MarkPublished(row: OutboxRow): OutboxRow {
    row.(status := Published, published := true)
  }

  function MarkFailed(row: OutboxRow, maxAttempts: nat): OutboxRow {
    row.(attempts := row.attempts + 1, status := if row.attempts + 1 >= maxAttempts then Failed else Pending)
  }

  function Mark(outbox: Outbox, k: nat, ok: bool, maxAttempts: nat): Outbox
    requires k in outbox
  {
    outbox[k := if ok then MarkPublished(outbox[k]) else MarkFailed(outbox[k], maxAttempts)]
  }

  /** Inserting the events of one transaction: consecutive row ids, one shared created_at. */
  function Enqueue(outbox: Outbox, next: nat, now: nat, events: seq<Event>): (r: Outbox)
    ensures forall k :: k in r <==> k in outbox || next <= k < next + |events|
    ensures forall k | next <= k < next + |events| :: r[k] == OutboxRow(events[k - next], now, 0, Pending, false)
    ensures forall k | k in outbox && !(next <= k < next + |events|) :: r[k] == outbox[k]
    decreases |events|
  {
    if events == [] then outbox
    else
      var n := |events| - 1;
      Enqueue(outbox, next, now, events[..n])[next + n := OutboxRow(events[n], now, 0, Pending, false)]
  }

  // ---------- what one attempt leaves behind ----------

  /** Every document is either untouched or has received the whole effect. */
  ghost predicate Between(e: Event, es: Index, es': Index) {
    forall id :: At(es', id) == At(es, id) || (Mentions(e, id) && At(es', id) == Effect(e, At(es, id)))
  }

  ghost predicate Applied(e: Event, es: Index, es': Index) {
    forall id :: At(es', id) == if Mentions(e, id) then Effect(e, At(es, id)) else At(es, id)
  }

  /** Deletions that cannot meet a missing document, should that matter. */
  ghost predicate Deletable(es: Index, ids: seq<Id>) {
    STRICT_DELETE ==> Distinct(ids) && forall id :: id in ids ==> id in es
  }

  /** What an event needs of the index. */
  ghost predicate Applicable(e: Event, es: Index) {
    match e
    case IndexDoc(_, _) => true
    case SetAvailable(ids, _) => forall id :: id in ids ==> id in es
    case Delete(ids) => Deletable(es, ids)
    case Unknown(_) => false
  }

  lemma {:induction false} SetAllBetween(es: Index, ids: seq<Id>, v: bool, calls: nat)
    ensures Between(SetAvailable(ids, v), es, SetAll(es, ids, v, calls).0)
    ensures SetAll(es, ids, v, calls).1 ==> Applied(SetAvailable(ids, v), es, SetAll(es, ids, v, calls).0)
    ensures SetAll(es, ids, v, calls).1 <==> calls >= |ids| && forall id :: id in ids ==> id in es
  {
    if ids == [] {
    } else if calls == 0 || ids[0] !in es {
    } else {
      SetAllBetween(es[ids[0] := es[ids[0]].(visible := v)], ids[1..], v, calls - 1);
    }
  }

  lemma {:induction false} DeleteAllBetween(es: Index, ids: seq<Id>, calls: nat)
    ensures Between(Delete(ids), es, DeleteAll(es, ids, calls).0)
    ensures DeleteAll(es, ids, calls).1 ==> Applied(Delete(ids), es, DeleteAll(es, ids, calls).0)
    ensures DeleteAll(es, ids, calls).1 <==> calls >= |ids| && Deletable(es, ids)
  {
    if ids == [] {
    } else if calls == 0 || (STRICT_DELETE && ids[0] !in es) {
    } else {
      DistinctHead(ids);
      DeleteAllBetween(es - {ids[0]}, ids[1..], calls - 1);
    }
  }

  lemma DistinctHead(ids: seq<Id>)
    requires ids != []
    ensures Distinct(ids) <==> ids[0] !in ids[1..] && Distinct(ids[1..])
  {
    if Distinct(ids) {
      forall i | 0 <= i < |ids[1..]| ensures ids[0] != ids[1..][i] { assert ids[1..][i] == ids[i + 1]; }
    } else {
      var i, j :| 0 <= i < j < |ids| && ids[i] == ids[j];
      assert ids[j] == ids[1..][j - 1];
      if i > 0 { assert ids[i] == ids[1..][i - 1]; }
    }
  }

  /** An attempt succeeds exactly if the index answers to the end and the event is applicable. */
  lemma PublishBetween(e: Event, es: Index, calls: nat)
    ensures Between(e, es, Publish(e, es, calls).0)
    ensures Publish(e, es, calls).1 ==> Applied(e, es, Publish(e, es, calls).0)
    ensures Publish(e, es, calls).1 <==> calls >= Size(e) && Applicable(e, es)
  {
    match e
    case IndexDoc(_, _) =>
    case SetAvailable(ids, v) => SetAllBetween(es, ids, v, calls);
    case Delete(ids) => DeleteAllBetween(es, ids, calls);
    case Unknown(_) =>
  }

  // ---------- convergence ----------

  /** Whatever safe state a document is in, delivering the event keeps it safe and makes it good. */
  ghost predicate Sound(safe: (Id, Option<Doc>) -> bool, good: (Id, Option<Doc>) -> bool, e: Event) {
    forall id, d | Mentions(e, id) && safe(id, d) && (e.SetAvailable? ==> d.Some?) ::
      safe(id, Effect(e, d)) && good(id, Effect(e, d))
  }

  /** Every document is safe, every open event is sound, and whatever is not good yet is mentioned by an
      open event. Sound events can be delivered in any order, any number of times, and half. */
  ghost predicate Converging(safe: (Id, Option<Doc>) -> bool, good: (Id, Option<Doc>) -> bool, es: Index, outbox: Outbox) {
    && (forall id :: safe(id, At(es, id)))
    && (forall k | Open(outbox, k) :: Sound(safe, good, outbox[k].event))
    && (forall id :: good(id, At(es, id)) || Covered(outbox, id))
  }

  ghost predicate Covered(outbox: Outbox, id: Id) {
    exists k :: Open(outbox, k) && Mentions(outbox[k].event, id)
  }

  /** No open event can fail on its own: set_available names only ids that are present and stay present. */
  ghost predicate Unwedged(es: Index, outbox: Outbox) {
    && (forall k :: Open(outbox, k) ==> !outbox[k].event.Unknown?)
    && (forall k, id :: Open(outbox, k) && outbox[k].event.SetAvailable? && id in outbox[k].event.ids ==>
          id in es && !DeletePending(outbox, id))
  }

  ghost predicate DeletePending(outbox: Outbox, id: Id) {
    exists k :: Open(outbox, k) && outbox[k].event.Delete? && id in outbox[k].event.ids
  }

  /** Delivering events leaves the ids of visibility events present. */
  lemma AttemptUnwedged(es: Index, outbox: Outbox, k: nat, calls: nat, outbox': Outbox)
    requires Unwedged(es, outbox) && Open(outbox, k)
    requires forall j :: Open(outbox', j) ==> Open(outbox, j) && outbox'[j].event == outbox[j].event
    ensures Unwedged(Publish(outbox[k].event, es, calls).0, outbox')
  {
    var e := outbox[k].event;
    PublishBetween(e, es, calls);
    forall j, id | Open(outbox', j) && outbox'[j].event.SetAvailable? && id in outbox'[j].event.ids
      ensures id in Publish(e, es, calls).0 && !DeletePending(outbox', id)
    {
      assert id in es && !DeletePending(outbox, id);
      assert At(Publish(e, es, calls).0, id) == At(es, id) || (Mentions(e, id) && At(Publish(e, es, calls).0, id) == Effect(e, At(es, id)));
    }
  }

  /** One attempt at event k: the index changes at once, the mark is lost if the process dies before commit. */
  lemma AttemptConverges(safe: (Id, Option<Doc>) -> bool, good: (Id, Option<Doc>) -> bool,
                         es: Index, outbox: Outbox, k: nat, calls: nat, outbox': Outbox, maxAttempts: nat)
    requires Converging(safe, good, es, outbox) && Unwedged(es, outbox) && Open(outbox, k)
    requires var (es', ok) := Publish(outbox[k].event, es, calls);
             outbox' == outbox || outbox' == Mark(outbox, k, ok, maxAttempts)
    ensures var (es', ok) := Publish(outbox[k].event, es, calls);
            && Converging(safe, good, es', outbox') && Unwedged(es', outbox')
            && (ok <==> calls >= Size(outbox[k].event) && (outbox[k].event.Delete? ==> Deletable(es, outbox[k].event.ids)))
  {
    var e := outbox[k].event;
    var (es', ok) := Publish(e, es, calls);
    PublishBetween(e, es, calls);
    assert forall j :: Open(outbox', j) ==> Open(outbox, j) && outbox'[j].event == outbox[j].event;
    AttemptUnwedged(es, outbox, k, calls, outbox');
    forall id
      ensures safe(id, At(es', id))
      ensures good(id, At(es', id)) || Covered(outbox', id)
    {
      if At(es', id) != At(es, id) {
        assert safe(id, At(es, id));
      } else if Covered(outbox, id) {
        var j :| Open(outbox, j) && Mentions(outbox[j].event, id);
        if j != k || !ok {
          assert Open(outbox', j) && Mentions(outbox'[j].event, id);
        } else {
          assert At(es', id) == Effect(e, At(es, id));
          assert safe(id, At(es, id));
          assert good(id, At(es', id)) || Covered(outbox', id);
        }
      }
    }
  }

  ghost predicate MentionedIn(events: seq<Event>, id: Id) {
    exists i :: 0 <= i < |events| && Mentions(events[i], id)
  }

  /** Committing new events keeps convergence if they are sound and cover what the transaction made not good. */
  lemma EnqueueConverges(safe: (Id, Option<Doc>) -> bool, good: (Id, Option<Doc>) -> bool,
                         es: Index, outbox: Outbox, next: nat, now: nat, events: seq<Event>)
    requires forall k :: k in outbox ==> k < next
    requires forall id :: safe(id, At(es, id))
    requires forall k | Open(outbox, k) :: Sound(safe, good, outbox[k].event)
    requires forall i | 0 <= i < |events| :: Sound(safe, good, events[i])
    requires forall id :: good(id, At(es, id)) || Covered(outbox, id) || MentionedIn(events, id)
    ensures Converging(safe, good, es, Enqueue(outbox, next, now, events))
  {
    var outbox' := Enqueue(outbox, next, now, events);
    EnqueueOpen(outbox, next, now, events);
    hide Enqueue, Sound, Mentions;
    forall k: nat | Open(outbox', k) ensures Sound(safe, good, outbox'[k].event) {
      if !Open(outbox, k) {
        assert outbox'[k].event == events[k - next];
      }
    }
    forall id ensures good(id, At(es, id)) || Covered(outbox', id) {
      if Covered(outbox, id) {
        var k :| Open(outbox, k) && Mentions(outbox[k].event, id);
        assert Open(outbox', k) && outbox'[k].event == outbox[k].event;
      } else if MentionedIn(events, id) {
        var i :| 0 <= i < |events| && Mentions(events[i], id);
        assert Open(outbox', next + i) && Mentions(outbox'[next + i].event, id);
      }
    }
  }

  /** The open events after a commit are the old ones and the new ones. */
  lemma EnqueueOpen(outbox: Outbox, next: nat, now: nat, events: seq<Event>)
    requires forall k :: k in outbox ==> k < next
    ensures forall k: nat :: Open(Enqueue(outbox, next, now, events), k) ==>
      || (Open(outbox, k) && Enqueue(outbox, next, now, events)[k] == outbox[k])
      || (next <= k < next + |events| && Enqueue(outbox, next, now, events)[k].event == events[k - next])
    ensures forall k: nat :: Open(outbox, k) ==> Open(Enqueue(outbox, next, now, events), k) && Enqueue(outbox, next, now, events)[k] == outbox[k]
    ensures forall i | 0 <= i < |events| :: Open(Enqueue(outbox, next, now, events), next + i) && Enqueue(outbox, next, now, events)[next + i].event == events[i]
  {
  }

  lemma EnqueueDeletes(outbox: Outbox, next: nat, now: nat, events: seq<Event>, id: Id)
    requires forall k :: k in outbox ==> k < next
    ensures DeletePending(Enqueue(outbox, next, now, events), id) ==> DeletePending(outbox, id) || DeletedBy(events, id)
  {
    EnqueueOpen(outbox, next, now, events);
    hide Enqueue;
    var outbox' := Enqueue(outbox, next, now, events);
    if DeletePending(outbox', id) {
      var j: nat :| Open(outbox', j) && outbox'[j].event.Delete? && id in outbox'[j].event.ids;
      if !Open(outbox, j) {
        assert events[j - next].Delete? && id in events[j - next].ids;
      }
    }
  }

  lemma EnqueueUnwedged(es: Index, outbox: Outbox, next: nat, now: nat, events: seq<Event>)
    requires forall k :: k in outbox ==> k < next
    requires Unwedged(es, outbox)
    requires forall i | 0 <= i < |events| :: !events[i].Unknown?
    requires forall i, id | 0 <= i < |events| && events[i].SetAvailable? && id in events[i].ids ::
               id in es && !DeletePending(outbox, id) && !DeletedBy(events, id)
    requires forall k, id | Open(outbox, k) && outbox[k].event.SetAvailable? && id in outbox[k].event.ids :: !DeletedBy(events, id)
    ensures Unwedged(es, Enqueue(outbox, next, now, events))
  {
    var outbox' := Enqueue(outbox, next, now, events);
    EnqueueOpen(outbox, next, now, events);
    hide Enqueue, DeletePending, DeletedBy;
    forall k: nat | Open(outbox', k) ensures !outbox'[k].event.Unknown? && SetReady(es, outbox', outbox'[k].event) {
      EnqueuedReady(es, outbox, next, now, events, k);
    }
  }

  ghost predicate SetReady(es: Index, outbox: Outbox, e: Event) {
    e.SetAvailable? ==> forall id :: id in e.ids ==> id in es && !DeletePending(outbox, id)
  }

  lemma EnqueuedReady(es: Index, outbox: Outbox, next: nat, now: nat, events: seq<Event>, k: nat)
    requires forall k :: k in outbox ==> k < next
    requires Unwedged(es, outbox)
    requires forall i | 0 <= i < |events| :: !events[i].Unknown?
    requires forall i, id | 0 <= i < |events| && events[i].SetAvailable? && id in events[i].ids ::
               id in es && !DeletePending(outbox, id) && !DeletedBy(events, id)
    requires forall k, id | Open(outbox, k) && outbox[k].event.SetAvailable? && id in outbox[k].event.ids :: !DeletedBy(events, id)
    requires Open(Enqueue(outbox, next, now, events), k)
    ensures var outbox' := Enqueue(outbox, next, now, events);
      !outbox'[k].event.Unknown? && SetReady(es, outbox', outbox'[k].event)
  {
    var outbox' := Enqueue(outbox, next, now, events);
    EnqueueOpen(outbox, next, now, events);
    hide Enqueue, DeletePending, DeletedBy;
    var e := outbox'[k].event;
    assert if Open(outbox, k) then e == outbox[k].event else e == events[k - next];
    if e.SetAvailable? {
      forall id | id in e.ids ensures id in es && !DeletePending(outbox', id) {
        EnqueueDeletes(outbox, next, now, events, id);
        if !Open(outbox, k) { assert id in events[k - next].ids; }
      }
    }
  }

  ghost predicate DeletedBy(events: seq<Event>, id: Id) {
    exists i :: 0 <= i < |events| && events[i].Delete? && id in events[i].ids
  }

  // ---------- one drain ----------

  datatype Drained = Drained(es: Index, outbox: Outbox, published: nat, failed: nat)

  /** A drain over the selected rows: each is attempted once, failures do not stop the loop. */
  function Drain(es: Index, outbox: Outbox, rows: seq<nat>, calls: seq<nat>, maxAttempts: nat): (r: Drained)
    requires |calls| == |rows| && forall k :: k in rows ==> k in outbox
    ensures forall k :: k in r.outbox <==> k in outbox
    ensures r.published + r.failed == |rows|
  {
    if rows == [] then Drained(es, outbox, 0, 0)
    else
      var n := |rows| - 1;
      assert rows == rows[..n] + [rows[n]];
      var r := Drain(es, outbox, rows[..n], calls[..n], maxAttempts);
      var (es', ok) := Publish(r.outbox[rows[n]].event, r.es, calls[n]);
      Drained(es', Mark(r.outbox, rows[n], ok, maxAttempts),
              if ok then r.published + 1 else r.published, if ok then r.failed else r.failed + 1)
  }

  lemma SplitLast<T>(s: seq<T>)
    requires s != []
    ensures s == s[..|s| - 1] + [s[|s| - 1]] && s[|s| - 1] in s && forall x :: x in s[..|s| - 1] ==> x in s
  {
  }

  /** The last row of a drain is attempted after the others. */
  lemma DrainLast(es: Index, outbox: Outbox, rows: seq<nat>, calls: seq<nat>, maxAttempts: nat)
    requires |calls| == |rows| && rows != [] && forall k :: k in rows ==> k in outbox
    ensures var n := |rows| - 1; rows == rows[..n] + [rows[n]] && rows[n] in rows && forall k :: k in rows[..n] ==> k in rows
    ensures var n := |rows| - 1;
      var q := Drain(es, outbox, rows[..n], calls[..n], maxAttempts);
      var (es', ok) := Publish(q.outbox[rows[n]].event, q.es, calls[n]);
      Drain(es, outbox, rows, calls, maxAttempts)
      == Drained(es', Mark(q.outbox, rows[n], ok, maxAttempts), q.published + if ok then 1 else 0, q.failed + if ok then 0 else 1)
  {
    SplitLast(rows);
    hide Publish, Mark;
  }

  lemma {:induction false} DrainFrame(es: Index, outbox: Outbox, rows: seq<nat>, calls: seq<nat>, maxAttempts: nat)
    requires |calls| == |rows| && (forall k :: k in rows ==> k in outbox)
    ensures var r := Drain(es, outbox, rows, calls, maxAttempts);
      forall k | k in outbox :: r.outbox[k].event == outbox[k].event && (k !in rows ==> r.outbox[k] == outbox[k])
  {
    if rows != [] {
      var n := |rows| - 1;
      DrainLast(es, outbox, rows, calls, maxAttempts);
      hide Drain, Publish;
      DrainFrame(es, outbox, rows[..n], calls[..n], maxAttempts);
    }
  }

  /** The rows of a drain: unpublished ones, each once. */
  ghost predicate Selected(outbox: Outbox, rows: seq<nat>) {
    (forall k :: k in rows ==> Open(outbox, k)) && forall i, j | 0 <= i < j < |rows| :: rows[i] != rows[j]
  }

  /** Exactly the published rows leave the set of unpublished ones. */
  lemma {:induction false} DrainCounts(es: Index, outbox: Outbox, rows: seq<nat>, calls: seq<nat>, maxAttempts: nat)
    requires |calls| == |rows| && Selected(outbox, rows)
    ensures var r := Drain(es, outbox, rows, calls, maxAttempts);
      && |Unpublished(r.outbox)| + r.published == |Unpublished(outbox)|
      && (forall k: nat :: Open(r.outbox, k) ==> Open(outbox, k))
  {
    if rows != [] {
      var n := |rows| - 1;
      assert forall k :: k in rows ==> k in outbox;
      DrainLast(es, outbox, rows, calls, maxAttempts);
      assert rows[n] !in rows[..n];
      hide Drain, Publish, Mark, Unpublished;
      DrainCounts(es, outbox, rows[..n], calls[..n], maxAttempts);
      DrainFrame(es, outbox, rows[..n], calls[..n], maxAttempts);
      var q := Drain(es, outbox, rows[..n], calls[..n], maxAttempts);
      assert q.outbox[rows[n]] == outbox[rows[n]];
      MarkCount(q.outbox, rows[n], Publish(q.outbox[rows[n]].event, q.es, calls[n]).1, maxAttempts);
    }
  }

  lemma MarkCount(outbox: Outbox, k: nat, ok: bool, maxAttempts: nat)
    requires Open(outbox, k)
    ensures |Unpublished(Mark(outbox, k, ok, maxAttempts))| == |Unpublished(outbox)| - (if ok then 1 else 0)
    ensures forall j: nat :: Open(Mark(outbox, k, ok, maxAttempts), j) ==> Open(outbox, j)
  {
    assert Unpublished(Mark(outbox, k, ok, maxAttempts)) == if ok then Unpublished(outbox) - {k} else Unpublished(outbox);
  }

  /** Deletions cannot fail on their own: should a missing document matter, each open one names documents that
      are there and that no other open deletion names. */
  ghost predicate Removable(es: Index, outbox: Outbox) {
    STRICT_DELETE ==>
      && (forall k :: Open(outbox, k) && outbox[k].event.Delete? ==> Deletable(es, outbox[k].event.ids))
      && (forall k, id :: Open(outbox, k) && outbox[k].event.Delete? && id in outbox[k].event.ids ==> DeletedOnce(outbox, k, id))
  }

  ghost predicate DeletedOnce(outbox: Outbox, k: nat, id: Id) {
    forall j :: Open(outbox, j) && outbox[j].event.Delete? && id in outbox[j].event.ids ==> j == k
  }

  /** Committing other events than deletions keeps this. */
  lemma EnqueueRemovable(es: Index, outbox: Outbox, next: nat, now: nat, events: seq<Event>)
    requires (forall k :: k in outbox ==> k < next) && Removable(es, outbox)
    requires forall i | 0 <= i < |events| :: !events[i].Delete?
    ensures Removable(es, Enqueue(outbox, next, now, events))
  {
    var outbox' := Enqueue(outbox, next, now, events);
    EnqueueOpen(outbox, next, now, events);
    hide Enqueue, Deletable;
    forall k: nat | Open(outbox', k) && outbox'[k].event.Delete? ensures Open(outbox, k) && outbox'[k] == outbox[k] { }
    forall k: nat, id | Open(outbox', k) && outbox'[k].event.Delete? && id in outbox'[k].event.ids && STRICT_DELETE ensures DeletedOnce(outbox', k, id) {
      assert DeletedOnce(outbox, k, id);
    }
  }

  lemma RemovableKept(es: Index, outbox: Outbox, k: nat, calls: nat, maxAttempts: nat)
    requires Removable(es, outbox) && Open(outbox, k) && Publish(outbox[k].event, es, calls).1
    ensures Removable(Publish(outbox[k].event, es, calls).0, Mark(outbox, k, true, maxAttempts))
  {
    var e := outbox[k].event;
    var es', outbox' := Publish(e, es, calls).0, Mark(outbox, k, true, maxAttempts);
    PublishBetween(e, es, calls);
    hide Publish, Applicable;
    assert forall j :: Open(outbox', j) <==> Open(outbox, j) && j != k;
    assert forall j :: Open(outbox', j) ==> outbox'[j].event == outbox[j].event;
    if STRICT_DELETE {
      forall j, id | Open(outbox', j) && outbox'[j].event.Delete? && id in outbox'[j].event.ids
        ensures id in es' && DeletedOnce(outbox', j, id)
      {
        assert DeletedOnce(outbox, j, id) && Deletable(es, outbox[j].event.ids);
        assert At(es', id) == if Mentions(e, id) then Effect(e, At(es, id)) else At(es, id);
      }
    }
  }

  lemma LastRemovable(es: Index, outbox: Outbox, k: nat, calls: nat, maxAttempts: nat)
    requires Unwedged(es, outbox) && Removable(es, outbox) && Open(outbox, k) && calls >= Size(outbox[k].event)
    ensures var (es', ok) := Publish(outbox[k].event, es, calls);
      ok && Removable(es', Mark(outbox, k, ok, maxAttempts)) && Unwedged(es', Mark(outbox, k, ok, maxAttempts))
  {
    PublishBetween(outbox[k].event, es, calls);
    assert Publish(outbox[k].event, es, calls).1 by {
      assert outbox[k].event.Delete? ==> Deletable(es, outbox[k].event.ids);
    }
    RemovableKept(es, outbox, k, calls, maxAttempts);
    AttemptUnwedged(es, outbox, k, calls, Mark(outbox, k, true, maxAttempts));
  }

  /** Drains keep convergence, whatever fails. */
  lemma {:induction false} DrainConverges(safe: (Id, Option<Doc>) -> bool, good: (Id, Option<Doc>) -> bool,
                       es: Index, outbox: Outbox, rows: seq<nat>, calls: seq<nat>, maxAttempts: nat)
    requires Converging(safe, good, es, outbox) && Unwedged(es, outbox)
    requires |calls| == |rows| && Selected(outbox, rows)
    ensures var r := Drain(es, outbox, rows, calls, maxAttempts);
      Converging(safe, good, r.es, r.outbox) && Unwedged(r.es, r.outbox)
  {
    if rows != [] {
      var n := |rows| - 1;
      assert forall k :: k in rows ==> k in outbox;
      DrainLast(es, outbox, rows, calls, maxAttempts);
      hide Drain, Publish, Converging, Unwedged;
      DrainConverges(safe, good, es, outbox, rows[..n], calls[..n], maxAttempts);
      DrainFrame(es, outbox, rows[..n], calls[..n], maxAttempts);
      var q := Drain(es, outbox, rows[..n], calls[..n], maxAttempts);
      assert rows[n] !in rows[..n];
      AttemptConverges(safe, good, q.es, q.outbox, rows[n], calls[n], Drain(es, outbox, rows, calls, maxAttempts).outbox, maxAttempts);
    }
  }

  /** Against an index that answers, none of the events fails. */
  lemma {:induction false} DrainHealthy(es: Index, outbox: Outbox, rows: seq<nat>, calls: seq<nat>, maxAttempts: nat)
    requires Unwedged(es, outbox) && Removable(es, outbox) && |calls| == |rows| && Selected(outbox, rows)
    requires forall i | 0 <= i < |rows| :: rows[i] in outbox && calls[i] >= Size(outbox[rows[i]].event)
    ensures var r := Drain(es, outbox, rows, calls, maxAttempts);
      r.failed == 0 && Unwedged(r.es, r.outbox) && Removable(r.es, r.outbox)
  {
    if rows != [] {
      var n := |rows| - 1;
      assert forall k :: k in rows ==> k in outbox;
      DrainLast(es, outbox, rows, calls, maxAttempts);
      assert rows[n] !in rows[..n];
      hide Drain, Publish, Unwedged, Removable;
      DrainHealthy(es, outbox, rows[..n], calls[..n], maxAttempts);
      DrainFrame(es, outbox, rows[..n], calls[..n], maxAttempts);
      var q := Drain(es, outbox, rows[..n], calls[..n], maxAttempts);
      LastRemovable(q.es, q.outbox, rows[n], calls[n], maxAttempts);
    }
  }

  // ---------- when a drain clears ----------

  /** No open index event writes a document that an open deletion names. */
  ghost predicate Separate(outbox: Outbox) {
    forall j, k :: Open(outbox, j) && outbox[j].event.IndexDoc? && Open(outbox, k) && outbox[k].event.Delete? ==>
      outbox[j].event.id !in outbox[k].event.ids
  }

  predicate Deletes(outbox: Outbox, k: nat, id: Id) {
    k in outbox && outbox[k].event.Delete? && id in outbox[k].event.ids
  }

  /** An attempt does not bring back a document that some open deletion names. */
  lemma AttemptSeparate(es: Index, outbox: Outbox, j: nat, calls: nat, k: nat, id: Id)
    requires Separate(outbox) && Open(outbox, j) && Open(outbox, k) && Deletes(outbox, k, id)
    ensures id in Publish(outbox[j].event, es, calls).0 ==> id in es
    ensures Publish(outbox[j].event, es, calls).1 && Deletes(outbox, j, id) ==> id !in Publish(outbox[j].event, es, calls).0
  {
    var e := outbox[j].event;
    PublishBetween(e, es, calls);
    var es' := Publish(e, es, calls).0;
    hide Publish;
    assert At(es', id) == At(es, id) || (Mentions(e, id) && At(es', id) == Effect(e, At(es, id)));
  }

  lemma {:induction false} DrainSeparate(es: Index, outbox: Outbox, rows: seq<nat>, calls: seq<nat>, maxAttempts: nat, k: nat, id: Id)
    requires |calls| == |rows| && Selected(outbox, rows) && Separate(outbox) && Open(outbox, k) && Deletes(outbox, k, id)
    ensures var r := Drain(es, outbox, rows, calls, maxAttempts);
      (id in r.es ==> id in es) && (r.failed == 0 && k in rows ==> id !in r.es)
  {
    if rows != [] {
      var n := |rows| - 1;
      assert forall j :: j in rows ==> j in outbox;
      DrainLast(es, outbox, rows, calls, maxAttempts);
      hide Drain, Separate, Publish;
      DrainSeparate(es, outbox, rows[..n], calls[..n], maxAttempts, k, id);
      DrainFrame(es, outbox, rows[..n], calls[..n], maxAttempts);
      var q := Drain(es, outbox, rows[..n], calls[..n], maxAttempts);
      assert rows[n] !in rows[..n];
      AttemptSeparate(q.es, outbox, rows[n], calls[n], k, id);
    }
  }

  /** What the deletions among the rows need of the index. */
  ghost predicate RemovableRows(es: Index, outbox: Outbox, rows: seq<nat>) {
    STRICT_DELETE ==>
      && (forall k :: k in rows && k in outbox && outbox[k].event.Delete? ==> Deletable(es, outbox[k].event.ids))
      && (forall j, k, id :: j in rows && k in rows && Deletes(outbox, j, id) && Deletes(outbox, k, id) ==> j == k)
  }

  /** A drain in which nothing fails had deletions of present documents only, each named once. */
  lemma {:induction false} DrainNeeds(es: Index, outbox: Outbox, rows: seq<nat>, calls: seq<nat>, maxAttempts: nat)
    requires |calls| == |rows| && Selected(outbox, rows) && Separate(outbox)
    requires forall k :: k in rows ==> k in outbox
    requires Drain(es, outbox, rows, calls, maxAttempts).failed == 0
    ensures RemovableRows(es, outbox, rows)
  {
    if rows != [] {
      var n := |rows| - 1;
      DrainSucceeded(es, outbox, rows, calls, maxAttempts);
      hide Drain, Separate, RemovableRows, Deletable, Deletes, Open;
      DrainNeeds(es, outbox, rows[..n], calls[..n], maxAttempts);
      var es' := Drain(es, outbox, rows[..n], calls[..n], maxAttempts).es;
      forall k, id | k in rows && Deletes(outbox, k, id) ensures (id in es' ==> id in es) && (k in rows[..n] ==> id !in es') {
        DrainSeparate(es, outbox, rows[..n], calls[..n], maxAttempts, k, id);
      }
      assert forall k :: k in rows[..n] ==> k in rows;
      assert rows[n] in rows && rows == rows[..n] + [rows[n]];
      NeedsLast(es, es', outbox, rows[..n], rows[n]);
    }
  }

  /** A drain in which nothing fails: neither does its front, and the last attempt succeeds. */
  lemma DrainSucceeded(es: Index, outbox: Outbox, rows: seq<nat>, calls: seq<nat>, maxAttempts: nat)
    requires |calls| == |rows| && Selected(outbox, rows) && rows != [] && forall k :: k in rows ==> k in outbox
    requires Drain(es, outbox, rows, calls, maxAttempts).failed == 0
    ensures var n := |rows| - 1;
      && Selected(outbox, rows[..n]) && rows[n] in outbox && Drain(es, outbox, rows[..n], calls[..n], maxAttempts).failed == 0
      && (outbox[rows[n]].event.Delete? ==> Deletable(Drain(es, outbox, rows[..n], calls[..n], maxAttempts).es, outbox[rows[n]].event.ids))
  {
    hide Publish, Deletable, Open;
    var n := |rows| - 1;
    DrainLast(es, outbox, rows, calls, maxAttempts);
    DrainFrame(es, outbox, rows[..n], calls[..n], maxAttempts);
    var q, e := Drain(es, outbox, rows[..n], calls[..n], maxAttempts), outbox[rows[n]].event;
    assert rows[n] !in rows[..n] && q.outbox[rows[n]].event == e;
    AttemptNeeds(e, q.es, calls[n]);
  }

  lemma AttemptNeeds(e: Event, es: Index, calls: nat)
    requires Publish(e, es, calls).1
    ensures e.Delete? ==> Deletable(es, e.ids)
  {
    PublishBetween(e, es, calls);
  }

  lemma NeedsLast(es: Index, es': Index, outbox: Outbox, front: seq<nat>, k: nat)
    requires RemovableRows(es, outbox, front) && k in outbox && (outbox[k].event.Delete? ==> Deletable(es', outbox[k].event.ids))
    requires forall id | Deletes(outbox, k, id) :: id in es' ==> id in es
    requires forall j, id | j in front && Deletes(outbox, j, id) :: id !in es'
    ensures RemovableRows(es, outbox, front + [k])
  {
    assert forall j :: j in front + [k] <==> j in front || j == k;
  }
}
