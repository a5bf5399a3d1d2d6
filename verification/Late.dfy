/** A reconcile loads the tables in one transaction, reads the index without a lock, and commits its repair in
    another transaction. Whatever happened in between, this module says exactly when the commit does no harm. */
module LateCommit {
  import opened Schema
  import opened Relay
  import opened Tables
  import opened Pipeline
  import opened Protocol
  import opened TableInvariant
  import opened IndexInvariant
  import Reconcile
  import Runs

  /** What happens from w on if the action comes next and everything after it is orderly. */
  ghost predicate Continues(w: World, a: Action, ws: seq<World>, actions: seq<Action>) {
    && Steps(ws, actions) && ws[0] == w && actions != [] && actions[0] == a
    && forall i | 0 < i < |actions| :: Proper(ws[i], actions[i])
  }

  /** With nothing unpublished the index matches the tables, and no index or visibility event is bound to fail. */
  ghost predicate EndsWell(ws: seq<World>) {
    ws != [] && (var w := ws[|ws| - 1];
      && (Unpublished(w.outbox) == {} ==> Runs.Matches(w))
      && forall k :: Open(w.outbox, k) && !w.outbox[k].event.Delete? ==> Applicable(w.outbox[k].event, w.es))
  }

  // ---------- deliveries ----------

  lemma StepsSnoc(ws: seq<World>, actions: seq<Action>, a: Action)
    requires Steps(ws, actions) && Enabled(ws[|actions|], a)
    ensures Steps(ws + [Apply(ws[|actions|], a)], actions + [a])
  {
    hide Apply, Enabled;
    var ws', actions' := ws + [Apply(ws[|actions|], a)], actions + [a];
    forall i | 0 <= i < |actions'| ensures Enabled(ws'[i], actions'[i]) && ws'[i + 1] == Apply(ws'[i], actions'[i]) {
      if i < |actions| { assert Enabled(ws[i], actions[i]) && ws[i + 1] == Apply(ws[i], actions[i]); }
    }
  }

  /** What a delivered event shows. */
  ghost predicate Shown(e: Event, es: Index) {
    match e
    case IndexDoc(id, source) => id in es && es[id] == source
    case SetAvailable(ids, v) => forall id :: id in ids ==> id in es && es[id].visible == v
    case Delete(ids) => forall id :: id in ids ==> id !in es
    case Unknown(_) => false
  }

  lemma DeliveredShows(e: Event, es: Index)
    requires Applicable(e, es)
    ensures Publish(e, es, Size(e)).1 && Shown(e, Publish(e, es, Size(e)).0)
  {
    PublishBetween(e, es, Size(e));
    var es' := Publish(e, es, Size(e)).0;
    hide Publish;
    forall id | Mentions(e, id) ensures if e.Delete? then id !in es' else id in es' && At(es', id) == Effect(e, At(es, id)) {
      assert At(es', id) == Effect(e, At(es, id));
    }
    assert e.IndexDoc? ==> Mentions(e, e.id);
    assert e.SetAvailable? || e.Delete? ==> forall id :: id in e.ids ==> Mentions(e, id);
  }

  function Delivery(w: World, k: nat): Action
    requires k in w.outbox
  {
    Attempt(k, Size(w.outbox[k].event), true)
  }

  /** Delivering an event that can be applied. */
  lemma Deliver(w: World, k: nat) returns (w': World)
    requires Open(w.outbox, k) && Applicable(w.outbox[k].event, w.es)
    ensures Enabled(w, Delivery(w, k)) && w' == Apply(w, Delivery(w, k))
    ensures w' == w.(es := w'.es, outbox := w'.outbox) && w'.es == Publish(w.outbox[k].event, w.es, Size(w.outbox[k].event)).0
    ensures forall j: nat :: Open(w'.outbox, j) <==> Open(w.outbox, j) && j != k
    ensures forall j | j in w.outbox :: j in w'.outbox && w'.outbox[j].event == w.outbox[j].event
    ensures Shown(w.outbox[k].event, w'.es)
    ensures Unwedged(w.es, w.outbox) ==> Unwedged(w'.es, w'.outbox)
    ensures Removable(w.es, w.outbox) ==> Removable(w'.es, w'.outbox)
  {
    var e := w.outbox[k].event;
    w' := AttemptWorld(w, k, Size(e), true);
    DeliveredShows(e, w.es);
    hide Shown, Applicable, Removable, Unwedged, Publish;
    if Unwedged(w.es, w.outbox) { AttemptUnwedged(w.es, w.outbox, k, Size(e), w'.outbox); }
    if Removable(w.es, w.outbox) { RemovableKept(w.es, w.outbox, k, Size(e), MAX_ATTEMPTS); }
  }

  /** The run goes on from ws0, actions0 with attempts only. */
  ghost predicate Attempts(ws0: seq<World>, actions0: seq<Action>, ws: seq<World>, actions: seq<Action>) {
    && |ws0| <= |ws| && ws[..|ws0|] == ws0 && |actions0| <= |actions| && actions[..|actions0|] == actions0
    && forall i | |actions0| <= i < |actions| :: actions[i].Attempt?
  }

  /** Delivering all open events, k last, until all are delivered or one is stuck. */
  lemma {:induction false} DeliverLast(ws0: seq<World>, actions0: seq<Action>, todo: set<nat>, k: nat)
    returns (ws: seq<World>, actions: seq<Action>, stuck: Option<nat>)
    requires Steps(ws0, actions0) && k !in todo && Open(ws0[|actions0|].outbox, k)
    requires forall j: nat :: Open(ws0[|actions0|].outbox, j) <==> j in todo || j == k
    ensures Steps(ws, actions) && Attempts(ws0, actions0, ws, actions) && ws[|actions|].pg == ws0[|actions0|].pg
    ensures stuck.Some? ==> Open(ws[|actions|].outbox, stuck.value)
                            && !Applicable(ws[|actions|].outbox[stuck.value].event, ws[|actions|].es)
    ensures stuck.None? ==> (forall j: nat :: !Open(ws[|actions|].outbox, j)) && Shown(ws0[|actions0|].outbox[k].event, ws[|actions|].es)
    ensures Removable(ws0[|actions0|].es, ws0[|actions0|].outbox) && stuck.Some? ==> !ws[|actions|].outbox[stuck.value].event.Delete?
    ensures Removable(ws0[|actions0|].es, ws0[|actions0|].outbox) && Unwedged(ws0[|actions0|].es, ws0[|actions0|].outbox) ==> stuck.None?
    decreases |todo|
  {
    hide Apply, Enabled, Applicable, Shown, Unwedged, Removable, Runs.Matches;
    var w := ws0[|actions0|];
    assert |ws0| == |actions0| + 1;
    var j := k;
    if todo != {} { j :| j in todo; }
    if !Applicable(w.outbox[j].event, w.es) {
      ws, actions, stuck := ws0, actions0, Some(j);
      if Removable(w.es, w.outbox) { StuckKind(w.es, w.outbox, j); }
      return;
    }
    var w' := Deliver(w, j);
    StepsSnoc(ws0, actions0, Delivery(w, j));
    var ws1, actions1 := ws0 + [w'], actions0 + [Delivery(w, j)];
    if j == k {
      ws, actions, stuck := ws1, actions1, None;
    } else {
      ws, actions, stuck := DeliverLast(ws1, actions1, todo - {j}, k);
      AttemptsJoin(ws0, actions0, ws1, actions1, ws, actions);
    }
  }

  /** Deletions that can be delivered are not what is stuck, and where nothing is wedged nothing is. */
  lemma StuckKind(es: Index, outbox: Outbox, k: nat)
    requires Removable(es, outbox) && Open(outbox, k)
    ensures outbox[k].event.Delete? ==> Applicable(outbox[k].event, es)
    ensures Unwedged(es, outbox) ==> Applicable(outbox[k].event, es)
  {
  }

  lemma AttemptsJoin(ws0: seq<World>, actions0: seq<Action>, ws1: seq<World>, actions1: seq<Action>, ws: seq<World>, actions: seq<Action>)
    requires Attempts(ws0, actions0, ws1, actions1) && Attempts(ws1, actions1, ws, actions)
    ensures Attempts(ws0, actions0, ws, actions)
  {
    assert ws[..|ws0|] == ws[..|ws1|][..|ws0|] && actions[..|actions0|] == actions[..|actions1|][..|actions0|];
    forall i | |actions0| <= i < |actions| ensures actions[i].Attempt? {
      if i < |actions1| { assert actions[i] == actions[..|actions1|][i]; }
    }
  }

  // ---------- what an event that does not suit leads to ----------

  /** The event does the wrong thing to this id. */
  ghost predicate Misfit(pg: Pg, e: Event, id: Id) {
    match e
    case IndexDoc(i, source) => id == i && source.visible && Reconcile.Labelled(pg, source) && !(Live(pg, id) && ActiveId(pg, id))
    case SetAvailable(ids, v) => id in ids && Live(pg, id) && v != ActiveId(pg, id) && (!v ==> pg.flipped)
    case Delete(ids) => id in ids && Live(pg, id)
    case Unknown(_) => false
  }

  lemma MisfitShows(w: World, e: Event, id: Id)
    requires Misfit(w.pg, e, id) && Shown(e, w.es)
    ensures !Runs.Matches(w)
  {
    assert !(Safe(w.pg, w.exact, id, At(w.es, id)) && Good(w.pg, id, At(w.es, id)));
  }

  /** Delivered last, it leaves the index wrong; or some event before it can never be delivered. */
  lemma MisfitHarms(ws0: seq<World>, actions0: seq<Action>, k: nat, id: Id) returns (ws: seq<World>, actions: seq<Action>)
    requires Steps(ws0, actions0) && Removable(ws0[|actions0|].es, ws0[|actions0|].outbox)
    requires Open(ws0[|actions0|].outbox, k) && Misfit(ws0[|actions0|].pg, ws0[|actions0|].outbox[k].event, id)
    ensures Steps(ws, actions) && Attempts(ws0, actions0, ws, actions) && !EndsWell(ws)
    ensures Unwedged(ws0[|actions0|].es, ws0[|actions0|].outbox) ==>
      Unpublished(ws[|actions|].outbox) == {} && ws[|actions|].pg == ws0[|actions0|].pg && !Runs.Matches(ws[|actions|])
  {
    var w := ws0[|actions0|];
    var todo := Unpublished(w.outbox) - {k};
    assert forall j: nat :: Open(w.outbox, j) <==> j in todo || j == k;
    hide Steps, Unwedged, Removable, Shown, Runs.Matches;
    var stuck;
    ws, actions, stuck := DeliverLast(ws0, actions0, todo, k);
    StepsLength(ws, actions);
    if stuck.None? {
      NothingOpen(ws[|actions|].outbox);
      MisfitShows(ws[|actions|], w.outbox[k].event, id);
    }
  }

  lemma StepsLength(ws: seq<World>, actions: seq<Action>)
    requires Steps(ws, actions)
    ensures |ws| == |actions| + 1
  {
  }

  lemma NothingOpen(outbox: Outbox)
    requires forall k: nat :: !Open(outbox, k)
    ensures Unpublished(outbox) == {}
  {
  }

  /** A visibility event for a deleted row is stuck as soon as the document is gone. */
  lemma DeadStuck(ws: seq<World>, actions: seq<Action>, k: nat, id: Id)
    requires |ws| == |actions| + 1
    requires var w := ws[|actions|]; Open(w.outbox, k) && w.outbox[k].event.SetAvailable? && id in w.outbox[k].event.ids && id !in w.es
    ensures !EndsWell(ws)
  {
  }

  /** The document of a deleted row that is still there is about to be deleted. */
  lemma DeadCovered(w: World, id: Id) returns (j: nat)
    requires Sync(w, false) && LabelsOk(w) && id in w.issued && !Live(w.pg, id) && id in w.es
    ensures Open(w.outbox, j) && w.outbox[j].event.Delete? && id in w.outbox[j].event.ids
  {
    assert !Good(w.pg, id, At(w.es, id));
    assert !GoodOf(w.pg)(id, At(w.es, id));
    j :| Open(w.outbox, j) && Mentions(w.outbox[j].event, id);
  }

  // ---------- commits ----------

  /** The state after a commit: its events are open, and so is what was open before. */
  lemma Committed(w: World, events: seq<Event>, i: nat)
    requires (forall k :: k in w.outbox ==> k < w.next) && i < |events|
    ensures var v := Emit(w, events);
      && v.pg == w.pg && v.es == w.es && v.inflight == w.inflight && Open(v.outbox, w.next + i) && v.outbox[w.next + i].event == events[i]
      && (forall j :: j in v.outbox ==> j < v.next)
      && (forall j: nat | Open(w.outbox, j) :: Open(v.outbox, j) && v.outbox[j].event == w.outbox[j].event)
  {
    EnqueueOpen(w.outbox, w.next, w.clock, events);
    hide Enqueue;
  }

  lemma CommitStep(w: World, pg0: Pg, seen: Index, c: Reconcile.Drift)
    requires Enabled(w, Commit(pg0, seen, c))
    ensures Steps([w, Emit(w, Reconcile.RepairEvents(pg0, c))], [Commit(pg0, seen, c)])
  {
    hide Reconcile.RepairEvents, Emit, Seen, Reconcile.Classifies;
  }

  lemma ContinuesWith(w: World, a: Action, ws0: seq<World>, actions0: seq<Action>, ws: seq<World>, actions: seq<Action>)
    requires Steps(ws, actions) && Attempts(ws0, actions0, ws, actions)
    requires ws0 != [] && ws0[0] == w && actions0 != [] && actions0[0] == a && forall i | 0 < i < |actions0| :: actions0[i].Flip?
    ensures Continues(w, a, ws, actions)
  {
    StepsLength(ws, actions);
    hide Steps;
    assert ws[0] == ws[..|ws0|][0] && actions[0] == actions[..|actions0|][0];
    forall i | 0 < i < |actions| ensures Proper(ws[i], actions[i]) {
      if i < |actions0| { assert actions[i] == actions[..|actions0|][i]; }
    }
  }

  /** Wrong for the tables as they are. */
  lemma UnsuitedHarms(w: World, a: Action, v: World, k: nat, id: Id) returns (ws: seq<World>, actions: seq<Action>)
    requires Removable(v.es, v.outbox) && Steps([w, v], [a]) && Open(v.outbox, k) && Misfit(v.pg, v.outbox[k].event, id)
    ensures Continues(w, a, ws, actions) && !EndsWell(ws)
  {
    hide Misfit, EndsWell, Continues, Steps, Attempts, Removable;
    var ws0, actions0 := [w, v], [a];
    ws, actions := MisfitHarms(ws0, actions0, k, id);
    ContinuesWith(w, a, ws0, actions0, ws, actions);
  }

  /** Wrong for the tables as the flip of the ingest in flight will leave them. */
  lemma SupersededHarms(w: World, a: Action, v: World, k: nat, id: Id) returns (ws: seq<World>, actions: seq<Action>)
    requires Removable(v.es, v.outbox) && Steps([w, v], [a]) && Open(v.outbox, k) && Cleared(v) && forall j :: j in v.outbox ==> j < v.next
    requires Misfit(FlipPg(v.pg, v.inflight.value.target), v.outbox[k].event, id)
    ensures Continues(w, a, ws, actions) && !EndsWell(ws)
  {
    var oldIds := ListOf(Below(v.pg, v.inflight.value.target));
    var v2 := FlipAfter(v, oldIds, k);
    hide Enabled, Apply, Misfit, EndsWell, Continues, Steps, Attempts, FlipPg, Below, Lists, Removable;
    StepsSnoc([w, v], [a], Flip(oldIds));
    var ws0, actions0 := [w, v, v2], [a, Flip(oldIds)];
    assert [w, v] + [v2] == ws0 && [a] + [Flip(oldIds)] == actions0;
    ws, actions := MisfitHarms(ws0, actions0, k, id);
    ContinuesWith(w, a, ws0, actions0, ws, actions);
  }

  lemma FlipAfter(v: World, oldIds: seq<Id>, k: nat) returns (v2: World)
    requires Cleared(v) && Lists(oldIds, Below(v.pg, v.inflight.value.target)) && Open(v.outbox, k) && forall j :: j in v.outbox ==> j < v.next
    ensures Enabled(v, Flip(oldIds)) && v2 == Apply(v, Flip(oldIds)) && v2.pg == FlipPg(v.pg, v.inflight.value.target)
    ensures Open(v2.outbox, k) && v2.outbox[k].event == v.outbox[k].event
    ensures Removable(v.es, v.outbox) ==> Removable(v2.es, v2.outbox)
  {
    hide Enqueue, Below, FlipPg, Removable, Lists;
    v2 := Apply(v, Flip(oldIds));
    var events := FlipEvents(v.inflight.value.ids, oldIds);
    assert v2.outbox == Enqueue(v.outbox, v.next, v.clock, events) && v2.es == v.es;
    assert forall i | 0 <= i < |events| :: !events[i].Delete?;
    hide FlipEvents, Enabled, Apply;
    FlipOpen(v.outbox, v.next, v.clock, events, k);
    if Removable(v.es, v.outbox) { EnqueueRemovable(v.es, v.outbox, v.next, v.clock, events); }
  }

  lemma FlipOpen(outbox: Outbox, next: nat, now: nat, events: seq<Event>, k: nat)
    requires Open(outbox, k) && forall j :: j in outbox ==> j < next
    ensures Open(Enqueue(outbox, next, now, events), k) && Enqueue(outbox, next, now, events)[k].event == outbox[k].event
  {
    EnqueueOpen(outbox, next, now, events);
    hide Enqueue;
  }

  lemma {:induction false} ListOf(s: set<Id>) returns (l: seq<Id>)
    ensures Lists(l, s)
  {
    if s == {} {
      l := [];
    } else {
      var x :| x in s;
      var rest := ListOf(s - {x});
      l := rest + [x];
    }
  }

  /** A visibility event that names a deleted row. */
  lemma DeadHarms(w: World, a: Action, v: World, k: nat, id: Id) returns (ws: seq<World>, actions: seq<Action>)
    requires Removable(v.es, v.outbox) && Steps([w, v], [a]) && Open(v.outbox, k) && v.outbox[k].event.SetAvailable? && id in v.outbox[k].event.ids
    requires Sync(w, false) && LabelsOk(w) && id in w.issued && !Live(w.pg, id) && v.es == w.es
    requires forall j: nat | Open(w.outbox, j) :: Open(v.outbox, j) && v.outbox[j].event == w.outbox[j].event
    ensures Continues(w, a, ws, actions) && !EndsWell(ws)
  {
    ws, actions := [w, v], [a];
    if id in w.es {
      var j := DeadCovered(w, id);
      hide Enabled, Apply, EndsWell, Continues, Steps, Sync;
      var v2 := DeliverDeletion(v, j, id);
      StepsSnoc(ws, actions, Delivery(v, j));
      ws, actions := [w, v, v2], [a, Delivery(v, j)];
      assert [w, v] + [v2] == ws && [a] + [Delivery(v, j)] == actions;
    }
    hide EndsWell, Continues, Steps, Sync;
    ContinuesWith(w, a, [w, v], [a], ws, actions);
    DeadStuck(ws, actions, k, id);
  }

  lemma DeliverDeletion(v: World, j: nat, id: Id) returns (v2: World)
    requires Removable(v.es, v.outbox) && Open(v.outbox, j) && v.outbox[j].event.Delete? && id in v.outbox[j].event.ids
    ensures Enabled(v, Delivery(v, j)) && v2 == Apply(v, Delivery(v, j)) && id !in v2.es
    ensures forall k: nat | Open(v.outbox, k) && k != j :: Open(v2.outbox, k) && v2.outbox[k].event == v.outbox[k].event
  {
    StuckKind(v.es, v.outbox, j);
    v2 := Deliver(v, j);
  }

  // ---------- the exact condition ----------

  /** What is hidden as retired was not active when it was loaded, so before the first publish it is not active now. */
  lemma RetiredInactive(w: World, pg0: Pg, seen: Index, c: Reconcile.Drift, id: Id)
    requires TablesOk(w) && EarlierTables(w, pg0) && Reconcile.Classifies(pg0, seen, c) && id in c.retired && !w.pg.flipped
    ensures Live(w.pg, id) && !ActiveId(w.pg, id)
  {
    assert Live(pg0, id) && !ActiveId(pg0, id);
    IdKinds(w.pg);
    IdKinds(pg0);
    hide Reconcile.Classifies, ChunksOk, SummariesOk, AnchorsOk, InflightOk, ReadingsOk, IssuedOk;
    assert KeptRow(pg0, w.pg, id);
  }

  /** A repair event that does not suit the tables does the wrong thing to some id, or names a deleted row. */
  lemma UnsuitedId(w: World, pg0: Pg, seen: Index, c: Reconcile.Drift, e: Event) returns (id: Id)
    requires TablesOk(w) && EarlierTables(w, pg0) && Reconcile.Classifies(pg0, seen, c) && IsRepair(pg0, c, e) && !Suits(w.pg, e)
    ensures Misfit(w.pg, e, id) || (e.SetAvailable? && id in e.ids && !Live(w.pg, id))
    ensures e.SetAvailable? && id in e.ids ==> id in c.avail || id in c.retired
  {
    hide TablesOk, EarlierTables, Reconcile.Classifies;
    match e
    case IndexDoc(i, source) =>
      id := i;
      assert Reconcile.Labelled(w.pg, source) by { SameLabel(w, pg0, i); }
    case SetAvailable(ids, v) =>
      id :| id in ids && !(Live(w.pg, id) && v == ActiveId(w.pg, id));
      if Live(w.pg, id) && !v && !w.pg.flipped {
        if id in c.retired { RetiredInactive(w, pg0, seen, c, id); }
      }
    case Delete(ids) =>
      id :| id in ids && Live(w.pg, id);
  }

  lemma SameLabel(w: World, pg0: Pg, id: Id)
    requires EarlierTables(w, pg0) && Live(pg0, id)
    ensures Reconcile.Labelled(w.pg, Expected(pg0, id).(visible := true))
  {
  }

  lemma SupersededId(w: World, pg0: Pg, c: Reconcile.Drift, e: Event) returns (id: Id)
    requires EarlierTables(w, pg0) && IsRepair(pg0, c, e) && Cleared(w)
    requires Suits(w.pg, e) && !Suits(FlipPg(w.pg, w.inflight.value.target), e) && !e.Delete?
    ensures Misfit(FlipPg(w.pg, w.inflight.value.target), e, id)
  {
    var t := w.inflight.value.target;
    match e
    case IndexDoc(i, source) =>
      id := i;
      SameLabel(w, pg0, i);
      FlipFrame(w.pg, t, false, i);
    case SetAvailable(ids, v) =>
      id :| id in ids && !(Live(FlipPg(w.pg, t), id) && v == ActiveId(FlipPg(w.pg, t), id));
      FlipFrame(w.pg, t, false, id);
  }

  lemma DeletionSuits(pg: Pg, t: nat, e: Event)
    requires e.Delete?
    ensures Suits(FlipPg(pg, t), e) == Suits(pg, e)
  {
    forall id { FlipFrame(pg, t, false, id); }
    hide FlipPg, Live;
  }

  /** The commit of a repair one of whose events is e, and the state v after it, in which e is open as event k. */
  ghost predicate Committing(w: World, pg0: Pg, seen: Index, c: Reconcile.Drift, v: World, k: nat, e: Event) {
    && Steps([w, v], [Commit(pg0, seen, c)]) && Open(v.outbox, k) && v.outbox[k].event == e
    && v.pg == w.pg && v.es == w.es && v.inflight == w.inflight && (forall j :: j in v.outbox ==> j < v.next)
    && (forall j: nat | Open(w.outbox, j) :: Open(v.outbox, j) && v.outbox[j].event == w.outbox[j].event)
    && EarlierTables(w, pg0) && IsRepair(pg0, c, e) && Seen(w.readings, pg0, seen) && Reconcile.Classifies(pg0, seen, c)
  }

  lemma CommittingAt(w: World, pg0: Pg, seen: Index, c: Reconcile.Drift, i: nat)
    requires TablesOk(w) && Enabled(w, Commit(pg0, seen, c)) && i < |Reconcile.RepairEvents(pg0, c)|
    ensures var events := Reconcile.RepairEvents(pg0, c);
      Committing(w, pg0, seen, c, Emit(w, events), w.next + i, events[i])
  {
    LoadedEarlier(w, pg0);
    RepairKind(pg0, seen, c, i);
    CommitStep(w, pg0, seen, c);
    Committed(w, Reconcile.RepairEvents(pg0, c), i);
    hide Emit, Steps, EarlierTables, IsRepair, Reconcile.RepairEvents, ChunksOk, SummariesOk, AnchorsOk, Reconcile.Classifies;
  }

  lemma UnsuitedCommit(w: World, pg0: Pg, seen: Index, c: Reconcile.Drift, v: World, k: nat, e: Event)
    returns (ws: seq<World>, actions: seq<Action>)
    requires Removable(v.es, v.outbox) && TablesOk(w) && SyncOk(w) && Committing(w, pg0, seen, c, v, k, e) && !Suits(w.pg, e)
    ensures Continues(w, Commit(pg0, seen, c), ws, actions) && !EndsWell(ws)
  {
    hide EarlierTables, Reconcile.Classifies, Continues, EndsWell, Misfit, IsRepair, Suits, Seen, Sync, Traced, Steps, StoredOk, ReadingsOk,
      Removable;
    var id := UnsuitedId(w, pg0, seen, c, e);
    if Misfit(w.pg, e, id) {
      ws, actions := UnsuitedHarms(w, Commit(pg0, seen, c), v, k, id);
    } else {
      FoundIds(w, pg0, seen, c, id);
      TracedLabels(w);
      ws, actions := DeadHarms(w, Commit(pg0, seen, c), v, k, id);
    }
  }

  lemma SupersededCommit(w: World, pg0: Pg, seen: Index, c: Reconcile.Drift, v: World, k: nat, e: Event)
    returns (ws: seq<World>, actions: seq<Action>)
    requires Removable(v.es, v.outbox) && Committing(w, pg0, seen, c, v, k, e) && Suits(w.pg, e) && !Fits(w, e)
    ensures Continues(w, Commit(pg0, seen, c), ws, actions) && !EndsWell(ws)
  {
    hide EarlierTables, Reconcile.Classifies, Continues, EndsWell, Misfit, IsRepair, Suits, Seen, Steps, Removable;
    if e.Delete? { DeletionSuits(w.pg, w.inflight.value.target, e); }
    var id := SupersededId(w, pg0, c, e);
    ws, actions := SupersededHarms(w, Commit(pg0, seen, c), v, k, id);
  }

  lemma UnfitHarms(w: World, pg0: Pg, seen: Index, c: Reconcile.Drift, i: nat) returns (ws: seq<World>, actions: seq<Action>)
    requires TablesOk(w) && SyncOk(w) && Enabled(w, Commit(pg0, seen, c)) && CommitRemovable(w, pg0, c)
    requires i < |Reconcile.RepairEvents(pg0, c)| && !Fits(w, Reconcile.RepairEvents(pg0, c)[i])
    ensures Continues(w, Commit(pg0, seen, c), ws, actions) && !EndsWell(ws)
  {
    hide Committing, Reconcile.RepairEvents, Seen, Continues, EndsWell, Fits, TablesOk, SyncOk, Emit, Removable, CommitRemovable;
    assert Reconcile.Repairable(pg0, c);
    hide Reconcile.Classifies, Reconcile.Repairable;
    RemovableAfter(w, pg0, c);
    var events := Reconcile.RepairEvents(pg0, c);
    CommittingAt(w, pg0, seen, c, i);
    ws, actions := UnfitCommit(w, pg0, seen, c, Emit(w, events), w.next + i, events[i]);
  }

  lemma RemovableAfter(w: World, pg0: Pg, c: Reconcile.Drift)
    requires CommitRemovable(w, pg0, c) && Reconcile.Repairable(pg0, c)
    ensures var v := Emit(w, Reconcile.RepairEvents(pg0, c)); Removable(v.es, v.outbox)
  {
    hide Reconcile.RepairEvents, Emit, Removable;
  }

  lemma UnfitCommit(w: World, pg0: Pg, seen: Index, c: Reconcile.Drift, v: World, k: nat, e: Event)
    returns (ws: seq<World>, actions: seq<Action>)
    requires Removable(v.es, v.outbox) && TablesOk(w) && SyncOk(w) && Committing(w, pg0, seen, c, v, k, e) && !Fits(w, e)
    ensures Continues(w, Commit(pg0, seen, c), ws, actions) && !EndsWell(ws)
  {
    hide Committing, Continues, EndsWell, Fits, TablesOk, SyncOk, Removable, Suits;
    if !Suits(w.pg, e) {
      ws, actions := UnsuitedCommit(w, pg0, seen, c, v, k, e);
    } else {
      ws, actions := SupersededCommit(w, pg0, seen, c, v, k, e);
    }
  }

  lemma TracedLabels(w: World)
    requires Traced(w)
    ensures LabelsOk(w)
  {
  }

  /** The invariants hold along any orderly continuation of a state in which they hold. */
  lemma {:induction false} StepsSync(ws: seq<World>, actions: seq<Action>, i: nat)
    requires Steps(ws, actions) && Orderly(ws, actions) && i <= |actions| && TablesOk(ws[0]) && SyncOk(ws[0])
    ensures TablesOk(ws[i]) && SyncOk(ws[i])
  {
    hide Apply, Enabled, TablesOk, SyncOk, Proper;
    if i > 0 {
      StepsSync(ws, actions, i - 1);
      TablesKept(ws[i - 1], actions[i - 1]);
      SyncKept(ws[i - 1], actions[i - 1]);
    }
  }

  lemma FitHarmless(w: World, pg0: Pg, seen: Index, c: Reconcile.Drift, ws: seq<World>, actions: seq<Action>)
    requires TablesOk(w) && SyncOk(w) && Continues(w, Commit(pg0, seen, c), ws, actions)
    requires Reconcile.Repairable(pg0, c) && AllFit(w, Reconcile.RepairEvents(pg0, c))
    ensures EndsWell(ws)
  {
    assert Orderly(ws, actions);
    StepsSync(ws, actions, |actions|);
    var v := ws[|actions|];
    hide Steps, Orderly, AllFit, Reconcile.RepairEvents, Traced, TablesOk, Runs.Matches;
    if Unpublished(v.outbox) == {} { Runs.QuietMatches(v); }
  }

  /** No deletion that is open after the commit is stuck: where deleting a missing document is an error, each names
      documents that are there. */
  ghost predicate CommitRemovable(w: World, pg0: Pg, c: Reconcile.Drift) {
    Reconcile.Repairable(pg0, c) ==>
      var v := Emit(w, Reconcile.RepairEvents(pg0, c)); Removable(v.es, v.outbox)
  }

  /** In every state that orderly steps can reach, and however long ago it loaded and read: committing a repair is
      harmless, whatever orderly steps follow, if and only if each of its events suits the current rows, and the
      rows as an ingest past its barrier is about to leave them. */
  lemma HarmlessIffFits(w: World, pg0: Pg, seen: Index, c: Reconcile.Drift)
    requires TablesOk(w) && SyncOk(w) && Enabled(w, Commit(pg0, seen, c)) && CommitRemovable(w, pg0, c)
    ensures AllFit(w, Reconcile.RepairEvents(pg0, c)) <==>
      forall ws: seq<World>, actions: seq<Action> | Continues(w, Commit(pg0, seen, c), ws, actions) :: EndsWell(ws)
  {
    var events := Reconcile.RepairEvents(pg0, c);
    if AllFit(w, events) {
      forall ws: seq<World>, actions: seq<Action> | Continues(w, Commit(pg0, seen, c), ws, actions) ensures EndsWell(ws) {
        FitHarmless(w, pg0, seen, c, ws, actions);
      }
    } else {
      var i :| 0 <= i < |events| && !Fits(w, events[i]);
      var ws, actions := UnfitHarms(w, pg0, seen, c, i);
    }
  }

  // ---------- repairs that fit ----------

  /** Relative to the tables it loaded, every repair is right. */
  lemma SuitsLoaded(pg: Pg, seen: Index, c: Reconcile.Drift, e: Event)
    requires Reconcile.Classifies(pg, seen, c) && IsRepair(pg, c, e)
    ensures Suits(pg, e)
  {
  }

  /** So a repair fits if the tables are as they were loaded and no ingest is about to flip, whatever the index
      held when it was read. */
  lemma UnchangedFits(w: World, seen: Index, c: Reconcile.Drift)
    requires TablesOk(w) && Reconcile.Classifies(w.pg, seen, c) && !Cleared(w)
    ensures AllFit(w, Reconcile.RepairEvents(w.pg, c))
  {
    var events := Reconcile.RepairEvents(w.pg, c);
    hide Reconcile.RepairEvents, Suits, IsRepair, Reconcile.Classifies;
    forall i | 0 <= i < |events| ensures Fits(w, events[i]) {
      RepairKind(w.pg, seen, c, i);
      SuitsLoaded(w.pg, seen, c, events[i]);
    }
  }

  /** A first publish of a later version than 1 has passed the barrier. The pointers' column default makes a
      reconcile take version 1 for the active one although it is about to be superseded. */
  predicate EarlyWindow(w: World) {
    Cleared(w) && !w.pg.flipped && w.inflight.value.target > 1
  }

  /** Past the barrier, documents of active rows are visible once the file is published, and documents of the
      version to be published are hidden unless it counts as active. */
  lemma ClearedDoc(w: World, id: Id)
    requires TablesOk(w) && Sync(w, false) && Cleared(w) && Live(w.pg, id)
    ensures id in w.es && Faithful(w.pg, false, id, w.es[id])
    ensures w.pg.flipped && ActiveId(w.pg, id) ==> w.es[id].visible
    ensures VersionOf(w.pg, id) == w.inflight.value.target && !ActiveId(w.pg, id) ==> !w.es[id].visible
  {
    var t := w.inflight.value.target;
    assert SafeOf(w.pg, false)(id, At(w.es, id));
    FlipRows(w.pg, t);
    FlipFrame(w.pg, t, false, id);
    ActiveVersion(w.pg, id);
    ActiveVersion(FlipPg(w.pg, t), id);
    if (w.pg.flipped && ActiveId(w.pg, id)) || (VersionOf(w.pg, id) == t && !ActiveId(w.pg, id)) {
      assert ActiveId(w.pg, id) != ActiveId(FlipPg(w.pg, t), id);
      Uncovered(w, id);
      assert GoodOf(w.pg)(id, At(w.es, id));
    }
  }

  /** No outstanding event mentions a row that the flip makes active or supersedes. */
  lemma Uncovered(w: World, id: Id)
    requires ClearedOk(w) && Cleared(w) && Live(w.pg, id) && ActiveId(w.pg, id) != ActiveId(FlipPg(w.pg, w.inflight.value.target), id)
    ensures !Covered(w.outbox, id)
  {
    hide FlipPg, ActiveId;
    forall k: nat | Open(w.outbox, k) ensures !Mentions(w.outbox[k].event, id) {
      assert Fits(w, w.outbox[k].event);
    }
  }

  /** What a reconcile that nothing interrupted finds past the barrier. */
  lemma ClearedDrift(w: World, c: Reconcile.Drift)
    requires TablesOk(w) && Sync(w, false) && Reconcile.Classifies(w.pg, w.es, c) && Cleared(w)
    ensures c.missChunks == [] && c.driftChunks == [] && c.missSummaries == [] && c.orphans == []
    ensures w.pg.flipped ==> c.avail == []
    ensures forall id :: id in c.retired ==> Live(w.pg, id) && VersionOf(w.pg, id) != w.inflight.value.target
  {
    NoOrphans(w, c, false);
    forall id | Live(w.pg, id)
      ensures id in w.es && Faithful(w.pg, false, id, w.es[id])
      ensures w.pg.flipped && ActiveId(w.pg, id) ==> w.es[id].visible
      ensures VersionOf(w.pg, id) == w.inflight.value.target && !ActiveId(w.pg, id) ==> !w.es[id].visible
    {
      ClearedDoc(w, id);
    }
    hide Sync, AnchorsOk, PointersOk, IssuedOk, InflightOk, ReadingsOk;
    assert Reconcile.MissChunks(w.pg, w.es) == {} == Reconcile.DriftChunks(w.pg, w.es);
    assert Reconcile.MissSummaries(w.pg, w.es) == {};
    assert w.pg.flipped ==> Reconcile.AvailDrift(w.pg, w.es) == {};
    assert forall id :: id in c.retired ==> id in Reconcile.RetiredLeaks(w.pg, w.es);
    ListsCount(c.missChunks, Reconcile.MissChunks(w.pg, w.es));
    ListsCount(c.driftChunks, Reconcile.DriftChunks(w.pg, w.es));
    ListsCount(c.missSummaries, Reconcile.MissSummaries(w.pg, w.es));
    ListsCount(c.avail, Reconcile.AvailDrift(w.pg, w.es));
  }

  /** A reconcile that nothing interrupts fits, except in the early window, where it fits if and only if it finds
      no hidden document to make visible. */
  lemma PromptFits(w: World, c: Reconcile.Drift)
    requires TablesOk(w) && Sync(w, false) && Reconcile.Classifies(w.pg, w.es, c)
    ensures AllFit(w, Reconcile.RepairEvents(w.pg, c)) <==> (EarlyWindow(w) ==> c.avail == [])
  {
    if Cleared(w) {
      ClearedDrift(w, c);
      PromptCleared(w, c);
    } else {
      UnchangedFits(w, w.es, c);
    }
  }

  lemma PromptCleared(w: World, c: Reconcile.Drift)
    requires TablesOk(w) && Reconcile.Classifies(w.pg, w.es, c) && Cleared(w)
    requires c.missChunks == [] && c.driftChunks == [] && c.missSummaries == [] && c.orphans == [] && (w.pg.flipped ==> c.avail == [])
    requires forall id :: id in c.retired ==> Live(w.pg, id) && VersionOf(w.pg, id) != w.inflight.value.target
    ensures AllFit(w, Reconcile.RepairEvents(w.pg, c)) <==> (EarlyWindow(w) ==> c.avail == [])
  {
    var t := w.inflight.value.target;
    var show, retire := SetAvailable(c.avail, true), SetAvailable(c.retired, false);
    assert Reconcile.RepairEvents(w.pg, c) == (if c.avail != [] then [show] else []) + (if c.retired != [] then [retire] else []);
    SuitsLoaded(w.pg, w.es, c, show);
    SuitsLoaded(w.pg, w.es, c, retire);
    assert t >= 1 && (!w.pg.flipped ==> w.pg.active.doc == 1) && (w.pg.flipped ==> w.pg.active.doc < t);
    TwoFit(w, if c.avail != [] then [show] else [], if c.retired != [] then [retire] else [], show, retire);
    hide Suits, AllFit, Reconcile.RepairEvents, Reconcile.Classifies, AnchorsOk, ReadingsOk;
    FlipSuits(w, c.retired, false);
    if c.avail != [] { FlipSuits(w, c.avail, true); }
  }

  /** After the flip exactly the rows of its target are active. */
  lemma FlipSuits(w: World, ids: seq<Id>, v: bool)
    requires TablesOk(w) && Cleared(w) && Suits(w.pg, SetAvailable(ids, v))
    ensures !v && (forall id :: id in ids ==> VersionOf(w.pg, id) != w.inflight.value.target)
            ==> Suits(FlipPg(w.pg, w.inflight.value.target), SetAvailable(ids, v))
    ensures v && ids != [] ==> (Suits(FlipPg(w.pg, w.inflight.value.target), SetAvailable(ids, v)) <==> w.inflight.value.target == w.pg.active.doc)
  {
    var t := w.inflight.value.target;
    FlipRows(w.pg, t);
    forall id | Live(w.pg, id)
      ensures Live(FlipPg(w.pg, t), id) && ActiveId(FlipPg(w.pg, t), id) == (VersionOf(w.pg, id) == t)
      ensures ActiveId(w.pg, id) == (VersionOf(w.pg, id) == w.pg.active.doc)
    {
      FlipFrame(w.pg, t, false, id);
      ActiveVersion(FlipPg(w.pg, t), id);
      ActiveVersion(w.pg, id);
    }
    hide FlipPg, TablesOk, Live, ActiveId, VersionOf;
    if ids != [] { assert ids[0] in ids; }
  }

  lemma TwoFit(w: World, a: seq<Event>, b: seq<Event>, x: Event, y: Event)
    requires (a == [] || a == [x]) && (b == [] || b == [y])
    ensures AllFit(w, a + b) <==> (a != [] ==> Fits(w, x)) && (b != [] ==> Fits(w, y))
  {
    hide Fits;
    if a != [] { assert (a + b)[0] == x; }
    if b != [] { assert (a + b)[|a|] == y; }
  }

  // ---------- a check on stored data ----------

  /** A version newer than the published one is staged. */
  predicate Pending(pg: Pg) {
    pg.versions != [] && (pg.flipped ==> pg.active.doc < Latest(pg.versions))
  }

  /** Whether an ingest has passed its barrier is not stored, but what it would flip to is: the latest version. */
  ghost predicate StoredFits(pg: Pg, e: Event) {
    Suits(pg, e) && (Pending(pg) ==> Suits(FlipPg(pg, Latest(pg.versions)), e))
  }

  ghost predicate AllStoredFit(pg: Pg, events: seq<Event>) {
    forall i | 0 <= i < |events| :: StoredFits(pg, events[i])
  }

  lemma StoredSuffices(w: World, events: seq<Event>)
    requires TablesOk(w) && AllStoredFit(w.pg, events)
    ensures AllFit(w, events)
  {
    assert Cleared(w) ==> Pending(w.pg) && w.inflight.value.target == Latest(w.pg.versions);
    hide TablesOk, Suits, Latest;
    forall i | 0 <= i < |events| ensures Fits(w, events[i]) {
      assert StoredFits(w.pg, events[i]);
    }
  }

  /** The documents that the tables ask for. */
  ghost function IdealDocs(pg: Pg): Index {
    map id | id in pg.chunks.Keys + pg.summaries.Keys && Live(pg, id) :: Expected(pg, id).(visible := pg.flipped && ActiveId(pg, id))
  }

  /** The same tables and readings, with everything delivered and the latest version about to be flipped to. */
  ghost function AboutToFlip(w: World, ids: seq<Id>): World {
    w.(outbox := map[], es := IdealDocs(w.pg), inflight := Some(Inflight(Latest(w.pg.versions), ids, true)))
  }

  ghost function LatestIds(pg: Pg): set<Id> {
    set id | id in pg.chunks.Keys + pg.summaries.Keys && Live(pg, id) && VersionOf(pg, id) == Latest(pg.versions)
  }

  lemma AboutToFlipOk(w: World, ids: seq<Id>)
    requires TablesOk(w) && Traced(w) && Pending(w.pg) && Lists(ids, LatestIds(w.pg))
    ensures var v := AboutToFlip(w, ids); TablesOk(v) && SyncOk(v) && Quiet(v)
  {
    var v := AboutToFlip(w, ids);
    assert forall id :: id in ids <==> Live(v.pg, id) && VersionOf(v.pg, id) == Latest(v.pg.versions);
    AboutTables(w, v);
    AboutSync(w, v, false);
    AboutSync(w, v, true);
    AboutTraced(w, v);
    hide TablesOk, Sync, Traced, Latest, IdealDocs;
  }

  lemma AboutTables(w: World, v: World)
    requires TablesOk(w) && Pending(w.pg) && v.pg == w.pg && v.issued == w.issued && v.readings == w.readings && v.outbox == map[]
    requires v.inflight.Some? && v.inflight.value.target == Latest(w.pg.versions)
    requires forall id :: id in v.inflight.value.ids <==> Live(v.pg, id) && VersionOf(v.pg, id) == v.inflight.value.target
    ensures TablesOk(v)
  {
    hide PointersOk, ChunksOk, SummariesOk, AnchorsOk, Latest;
  }

  lemma AboutSync(w: World, v: World, exact: bool)
    requires TablesOk(w) && v.pg == w.pg && v.issued == w.issued && v.outbox == map[] && v.es == IdealDocs(w.pg)
    ensures Sync(v, exact)
  {
    IdealConverges(v, exact);
    IdealIssued(w);
    hide TablesOk, IdealDocs, Converging, Live;
    NothingOutstanding(v, exact);
  }

  lemma IdealConverges(v: World, exact: bool)
    requires v.outbox == map[] && v.es == IdealDocs(v.pg)
    ensures Converging(SafeOf(v.pg, exact), GoodOf(v.pg), v.es, v.outbox)
  {
    forall id ensures SafeOf(v.pg, exact)(id, At(v.es, id)) && GoodOf(v.pg)(id, At(v.es, id)) {
      IdealDoc(v.pg, exact, id);
    }
    hide IdealDocs, Safe, Good;
  }

  lemma IdealIssued(w: World)
    requires TablesOk(w)
    ensures forall id :: id in IdealDocs(w.pg) <==> Live(w.pg, id)
    ensures forall id :: id in IdealDocs(w.pg) ==> id in w.issued
  {
    hide PointersOk, ChunksOk, SummariesOk, AnchorsOk, InflightOk, ReadingsOk, Expected;
  }

  lemma NothingOutstanding(v: World, exact: bool)
    requires Converging(SafeOf(v.pg, exact), GoodOf(v.pg), v.es, v.outbox) && v.outbox == map[]
    requires (forall id :: Live(v.pg, id) ==> id in v.es) && forall id :: id in v.es ==> id in v.issued
    ensures Sync(v, exact)
  {
    hide Converging, Live, Fits;
  }

  lemma IdealDoc(pg: Pg, exact: bool, id: Id)
    ensures id in IdealDocs(pg) <==> Live(pg, id)
    ensures Safe(pg, exact, id, At(IdealDocs(pg), id)) && Good(pg, id, At(IdealDocs(pg), id))
  {
  }

  lemma AboutTraced(w: World, v: World)
    requires TablesOk(w) && Traced(w) && v.pg == w.pg && v.issued == w.issued && v.readings == w.readings && v.es == IdealDocs(w.pg)
    ensures Traced(v)
  {
    assert forall id | id in v.es :: id in v.issued && Reconcile.Labelled(v.pg, v.es[id]);
    assert forall id :: Live(v.pg, id) ==> id in v.es;
    hide TablesOk, IdealDocs, Live;
    forall r | r in v.readings ensures LookOk(v, r) {
      assert LookOk(w, r);
    }
  }

  /** Where the check fails, the repair does not fit some state of the process with these tables and readings. */
  lemma StoredNeeded(w: World, events: seq<Event>) returns (v: World)
    requires TablesOk(w) && SyncOk(w) && !AllStoredFit(w.pg, events)
    ensures TablesOk(v) && SyncOk(v) && v.pg == w.pg && v.readings == w.readings && !AllFit(v, events)
  {
    var i :| 0 <= i < |events| && !StoredFits(w.pg, events[i]);
    hide TablesOk, SyncOk, Suits, IdealDocs;
    if !Suits(w.pg, events[i]) {
      v := w;
    } else {
      var ids := ListOf(LatestIds(w.pg));
      v := AboutToFlip(w, ids);
      assert Traced(w) by { SyncTraced(w); }
      AboutToFlipOk(w, ids);
    }
    assert !Fits(v, events[i]);
  }

  lemma SyncTraced(w: World)
    requires SyncOk(w)
    ensures Traced(w)
  {
  }

  ghost predicate SameStore(w: World, v: World) {
    v.pg == w.pg && v.readings == w.readings && TablesOk(v) && SyncOk(v)
  }

  /** The check on stored rows alone is exactly what a commit can do: it passes if and only if the repair fits
      whatever the running ingest, the outbox and the index are up to. */
  lemma StoredExact(w: World, events: seq<Event>)
    requires TablesOk(w) && SyncOk(w)
    ensures AllStoredFit(w.pg, events) <==> forall v | SameStore(w, v) :: AllFit(v, events)
  {
    hide TablesOk, SyncOk, AllFit, AllStoredFit;
    if AllStoredFit(w.pg, events) {
      forall v | SameStore(w, v) ensures AllFit(v, events) {
        StoredSuffices(v, events);
      }
    } else {
      var v := StoredNeeded(w, events);
      assert SameStore(w, v);
    }
  }

  /** Where it fails, the commit does harm in such a state. */
  lemma StoredHarms(w: World, pg0: Pg, seen: Index, c: Reconcile.Drift) returns (v: World)
    requires TablesOk(w) && SyncOk(w) && Enabled(w, Commit(pg0, seen, c)) && !AllStoredFit(w.pg, Reconcile.RepairEvents(pg0, c))
    ensures SameStore(w, v) && Enabled(v, Commit(pg0, seen, c))
    ensures CommitRemovable(v, pg0, c) ==>
      exists ws: seq<World>, actions: seq<Action> :: Continues(v, Commit(pg0, seen, c), ws, actions) && !EndsWell(ws)
  {
    var events := Reconcile.RepairEvents(pg0, c);
    v := StoredNeeded(w, events);
    SameEnabled(w, v, pg0, seen, c);
    hide TablesOk, SyncOk, Reconcile.RepairEvents, AllFit, AllStoredFit, Continues, EndsWell, Enabled, CommitRemovable;
    if CommitRemovable(v, pg0, c) { HarmlessIffFits(v, pg0, seen, c); }
  }

  lemma SameEnabled(w: World, v: World, pg0: Pg, seen: Index, c: Reconcile.Drift)
    requires v.readings == w.readings && Enabled(w, Commit(pg0, seen, c))
    ensures Enabled(v, Commit(pg0, seen, c))
  {
    hide Reconcile.Classifies, Seen;
  }
}
