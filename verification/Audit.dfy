/** The audit hash chain (app/audit.py): linked appends, verification, and the trust anchor. */
module Audit {
  import opened Schema
  import opened Tables

  /** The columns of a kb_audit_log row that the caller supplies. */
  datatype Entry = Entry(
    tenant: Option<string>, user: Option<string>, action: string,
    kbs: Option<seq<string>>, query: Option<string>, hits: Option<seq<string>>,
    result: string, request: Option<string>, ip: Option<string>, agent: Option<string>, detail: Option<string>)

  /** What is hashed. Sorted id lists are multisets: the order of ids is not covered. */
  datatype Payload = Payload(
    tenant: Option<string>, user: Option<string>, action: string,
    kbs: Option<multiset<string>>, query: Option<string>, hits: Option<multiset<string>>,
    result: string, request: Option<string>, ip: Option<string>, agent: Option<string>, detail: Option<string>)

  /** str(ipaddress.ip_address(s)), or s itself when that does not parse. */
  const CanonIp: string -> string

  /** BYTEA values: the empty string, a sha256 digest, or anything else. A digest determines what was
      hashed, because sha256 is taken to be injective and a hex prefix cannot contain the separator. */
  datatype Bytes = Empty | Digest(prev: Option<Bytes>, payload: Payload) | Raw(n: nat)

  datatype Row = Row(id: nat, entry: Entry, prev: Option<Bytes>, hash: Option<Bytes>)

  function Arr(ids: Option<seq<string>>): Option<multiset<string>> {
    if ids.None? then None else Some(multiset(ids.value))
  }

  function Canon(e: Entry): Payload {
    Payload(e.tenant, e.user, e.action, Arr(e.kbs), e.query, Arr(e.hits), e.result, e.request,
            if e.ip.None? then None else Some(CanonIp(e.ip.value)), e.agent, e.detail)
  }

  /** Both absent, or both present with each id as often. */
  predicate SameIds(a: Option<seq<string>>, b: Option<seq<string>>) {
    (a.None? && b.None?) || (a.Some? && b.Some? && multiset(a.value) == multiset(b.value))
  }

  /** Both absent, or both present and the same address. */
  predicate SameIp(a: Option<string>, b: Option<string>) {
    (a.None? && b.None?) || (a.Some? && b.Some? && CanonIp(a.value) == CanonIp(b.value))
  }

  /** What an audit row attests is the same: every column, but for the order of the ids and the way an address is written. */
  predicate SameAudited(a: Entry, b: Entry) {
    && a.tenant == b.tenant && a.user == b.user && a.action == b.action
    && SameIds(a.kbs, b.kbs) && a.query == b.query && SameIds(a.hits, b.hits)
    && a.result == b.result && a.request == b.request && SameIp(a.ip, b.ip) && a.agent == b.agent && a.detail == b.detail
  }

  /** The canonical payload covers every column. */
  lemma CanonCovers(a: Entry, b: Entry)
    ensures Canon(a) == Canon(b) <==> SameAudited(a, b)
  {
  }

  /** Empty bytes count as no predecessor. */
  function RowHash(prev: Option<Bytes>, payload: Payload): Bytes {
    Digest(if prev == Some(Empty) then None else prev, payload)
  }

  /** A digest determines the payload and the predecessor, where empty bytes are none. */
  lemma RowHashCovers(p: Option<Bytes>, x: Payload, q: Option<Bytes>, y: Payload)
    ensures RowHash(p, x) == RowHash(q, y) <==>
      x == y && (p == q || ((p == None || p == Some(Empty)) && (q == None || q == Some(Empty))))
  {
  }

  /** A tenant's rows in id order; no tenant is the global bucket. */
  function ChainOf(log: seq<Row>, tenant: Option<string>): seq<Row> {
    if log == [] then []
    else
      var n := |log| - 1;
      ChainOf(log[..n], tenant) + if log[n].entry.tenant == tenant then [log[n]] else []
  }

  // ---------- append ----------

  /** The last hash of the chain, which a new row links to. */
  function TailHash(chain: seq<Row>): Option<Bytes> {
    if chain == [] then None
    else if chain[|chain| - 1].hash.Some? then chain[|chain| - 1].hash
    else TailHash(chain[..|chain| - 1])
  }

  /** It is that of the last row that has a hash. */
  lemma {:induction false} TailHashMeans(chain: seq<Row>)
    ensures TailHash(chain).None? <==> forall i | 0 <= i < |chain| :: chain[i].hash.None?
    ensures TailHash(chain).Some? ==> exists k | 0 <= k < |chain| ::
      chain[k].hash == TailHash(chain) && forall i | k < i < |chain| :: chain[i].hash.None?
  {
    if chain != [] && chain[|chain| - 1].hash.None? {
      TailHashMeans(chain[..|chain| - 1]);
    }
  }

  /** The rows of the chain are the log's rows of the tenant, in the order of the log. */
  lemma {:induction false} ChainMeans(log: seq<Row>, tenant: Option<string>) returns (places: seq<nat>)
    ensures Filters(log, (row: Row) => row.entry.tenant == tenant, ChainOf(log, tenant), places)
  {
    if log == [] {
      places := [];
    } else {
      var n := |log| - 1;
      var front := ChainMeans(log[..n], tenant);
      places := if log[n].entry.tenant == tenant then front + [n] else front;
      FiltersNext(log, (row: Row) => row.entry.tenant == tenant, ChainOf(log[..n], tenant), front);
    }
  }

  /** Without the tenant's lock the row starts over with no predecessor. */
  function NewRow(log: seq<Row>, id: nat, e: Entry, got: bool): Row {
    var last := TailHash(ChainOf(log, e.tenant));
    var prev := if got && last != Some(Empty) then last else None;
    Row(id, e, prev, Some(RowHash(prev, Canon(e))))
  }

  // ---------- what verification looks for ----------

  predicate MismatchAt(c: seq<Row>, i: nat) {
    i < |c| && c[i].hash.Some? && c[i].hash.value != RowHash(c[i].prev, Canon(c[i].entry))
  }

  predicate BreakAt(c: seq<Row>, i: nat) {
    0 < i < |c| && c[i].hash.Some? && c[i].prev.Some? && c[i - 1].hash.Some? && c[i].prev != c[i - 1].hash
  }

  predicate GapAt(c: seq<Row>, i: nat) {
    i < |c| && (c[i].hash.None? || (c[i].prev.None? && Started(c, i)))
  }

  function Mismatches(c: seq<Row>): set<nat> {
    set i | 0 <= i < |c| && MismatchAt(c, i)
  }

  function Breaks(c: seq<Row>): set<nat> {
    set i | 0 <= i < |c| && BreakAt(c, i)
  }

  function Gaps(c: seq<Row>): set<nat> {
    set i | 0 <= i < |c| && GapAt(c, i)
  }

  predicate Verified(c: seq<Row>) {
    Mismatches(c) == {} && Breaks(c) == {}
  }

  datatype Report = Report(
    verified: bool, rows: nat, mismatches: nat, breaks: nat, gaps: nat,
    head: Option<nat>, tail: Option<nat>, firstMismatch: Option<nat>, firstBreak: Option<nat>)

  /** `id` is that of the first row among `found`, if there is one. */
  ghost predicate IsFirst(c: seq<Row>, found: set<nat>, id: Option<nat>) {
    if found == {} then id.None?
    else exists k | k in found && k < |c| :: id == Some(c[k].id) && forall j :: j in found ==> k <= j
  }

  ghost predicate Reports(c: seq<Row>, r: Report) {
    && r.rows == |c| && (r.verified <==> Verified(c))
    && r.mismatches == |Mismatches(c)| && r.breaks == |Breaks(c)| && r.gaps == |Gaps(c)|
    && (if c == [] then r.head == None == r.tail else r.head == Some(c[0].id) && r.tail == Some(c[|c| - 1].id))
    && IsFirst(c, Mismatches(c), r.firstMismatch) && IsFirst(c, Breaks(c), r.firstBreak)
  }

  lemma FirstNoted(c: seq<Row>, found: set<nat>, id: Option<nat>, i: nat)
    requires IsFirst(c, found, id) && i < |c| && forall j :: j in found ==> j < i
    ensures IsFirst(c, found + {i}, if id.None? then Some(c[i].id) else id)
  {
    if found != {} {
      var k :| k in found && k < |c| && id == Some(c[k].id) && forall j :: j in found ==> k <= j;
      assert k in found + {i};
    }
  }

  ghost function Upto(i: nat, p: nat -> bool): set<nat> {
    set j | 0 <= j < i && p(j)
  }

  lemma UptoNext(i: nat, p: nat -> bool)
    ensures Upto(i + 1, p) == if p(i) then Upto(i, p) + {i} else Upto(i, p)
    ensures |Upto(i + 1, p)| == |Upto(i, p)| + if p(i) then 1 else 0
  {
    assert Upto(i + 1, p) == if p(i) then Upto(i, p) + {i} else Upto(i, p);
  }

  lemma FirstKept(c: seq<Row>, i: nat, p: nat -> bool, id: Option<nat>)
    requires i < |c| && IsFirst(c, Upto(i, p), id)
    ensures IsFirst(c, Upto(i + 1, p), if p(i) && id.None? then Some(c[i].id) else id)
  {
    UptoNext(i, p);
    if p(i) { FirstNoted(c, Upto(i, p), id, i); }
  }

  /** The counters and first ids over the first i rows. */
  ghost predicate Counted(c: seq<Row>, i: nat, r: Report) {
    var ms, bs, gs := (j: nat) => MismatchAt(c, j), (j: nat) => BreakAt(c, j), (j: nat) => GapAt(c, j);
    && r.mismatches == |Upto(i, ms)| && r.breaks == |Upto(i, bs)| && r.gaps == |Upto(i, gs)|
    && IsFirst(c, Upto(i, ms), r.firstMismatch) && IsFirst(c, Upto(i, bs), r.firstBreak)
  }

  function Bumped(flag: bool, n: nat): nat {
    if flag then n + 1 else n
  }

  function FirstOf(flag: bool, id: nat, first: Option<nat>): Option<nat> {
    if flag && first.None? then Some(id) else first
  }

  lemma CountedNext(c: seq<Row>, i: nat, r: Report, r': Report)
    requires i < |c| && Counted(c, i, r)
    requires r'.mismatches == Bumped(MismatchAt(c, i), r.mismatches) && r'.firstMismatch == FirstOf(MismatchAt(c, i), c[i].id, r.firstMismatch)
    requires r'.breaks == Bumped(BreakAt(c, i), r.breaks) && r'.firstBreak == FirstOf(BreakAt(c, i), c[i].id, r.firstBreak)
    requires r'.gaps == Bumped(GapAt(c, i), r.gaps)
    ensures Counted(c, i + 1, r')
  {
    var ms, bs, gs := (j: nat) => MismatchAt(c, j), (j: nat) => BreakAt(c, j), (j: nat) => GapAt(c, j);
    UptoNext(i, ms);
    UptoNext(i, bs);
    UptoNext(i, gs);
    FirstKept(c, i, ms, r.firstMismatch);
    FirstKept(c, i, bs, r.firstBreak);
    hide Upto, IsFirst, MismatchAt, BreakAt, GapAt;
  }

  lemma CountedAll(c: seq<Row>, r: Report)
    requires Counted(c, |c|, r)
    ensures r.mismatches == |Mismatches(c)| && r.breaks == |Breaks(c)| && r.gaps == |Gaps(c)|
    ensures IsFirst(c, Mismatches(c), r.firstMismatch) && IsFirst(c, Breaks(c), r.firstBreak)
  {
    hide MismatchAt, BreakAt, GapAt, IsFirst;
    assert Upto(|c|, (j: nat) => MismatchAt(c, j)) == Mismatches(c);
    assert Upto(|c|, (j: nat) => BreakAt(c, j)) == Breaks(c);
    assert Upto(|c|, (j: nat) => GapAt(c, j)) == Gaps(c);
  }

  predicate Started(c: seq<Row>, i: nat)
    requires i <= |c|
  {
    exists j | 0 <= j < i :: c[j].hash.Some?
  }

  /** The checks of one row that carries a hash. */
  method CheckRow(c: seq<Row>, i: nat, prevHash: Option<Bytes>, started: bool, r: Report) returns (r': Report)
    requires i < |c| && c[i].hash.Some? && prevHash == (if i == 0 then None else c[i - 1].hash) && started == Started(c, i)
    requires Counted(c, i, r)
    ensures Counted(c, i + 1, r') && r'.rows == r.rows && r'.head == r.head && r'.tail == r.tail
  {
    hide Counted, Canon;
    r' := r;
    var row := c[i];
    if RowHash(row.prev, Canon(row.entry)) != row.hash.value {
      r' := r'.(mismatches := r'.mismatches + 1, firstMismatch := if r'.firstMismatch.None? then Some(row.id) else r'.firstMismatch);
    }
    if row.prev.None? {
      if started { r' := r'.(gaps := r'.gaps + 1); }
    } else if prevHash.Some? && row.prev != prevHash {
      r' := r'.(breaks := r'.breaks + 1, firstBreak := if r'.firstBreak.None? then Some(row.id) else r'.firstBreak);
    }
    CountedNext(c, i, r, r');
  }

  /** The loop of verify_audit_chain over the tenant's rows. */
  method VerifyRows(c: seq<Row>) returns (r: Report)
    ensures Reports(c, r)
  {
    r := Report(true, 0, 0, 0, 0, None, None, None, None);
    var prevHash: Option<Bytes> := None;
    var started := false;
    for i := 0 to |c|
      invariant Counted(c, i, r) && r.rows == i
      invariant if i == 0 then r.head == None == r.tail else r.head == Some(c[0].id) && r.tail == Some(c[i - 1].id)
      invariant prevHash == (if i == 0 then None else c[i - 1].hash) && started == Started(c, i)
    {
      if c[i].hash.None? {
        var r0 := r;
        r := r.(gaps := r.gaps + 1);
        CountedNext(c, i, r0, r);
      } else {
        r := CheckRow(c, i, prevHash, started, r);
        started := true;
      }
      hide Counted;
      prevHash := c[i].hash;
      r := r.(rows := i + 1, head := if r.head.None? then Some(c[i].id) else r.head, tail := Some(c[i].id));
    }
    CountedAll(c, r);
    r := r.(verified := r.mismatches == 0 && r.breaks == 0);
  }

  // ---------- the log ----------

  datatype Anchor = Anchor(rowCount: nat, head: nat, tail: nat, root: Option<Bytes>)

  function Hashed(c: seq<Row>): seq<Row> {
    if c == [] then []
    else Hashed(c[..|c| - 1]) + if c[|c| - 1].hash.Some? then [c[|c| - 1]] else []
  }

  /** count, min(id), max(id) of the hashed rows and the hash of the last; nothing for an empty chain. */
  function AnchorOf(log: seq<Row>, tenant: Option<string>): Option<Anchor> {
    var c := Hashed(ChainOf(log, tenant));
    if c == [] then None else Some(Anchor(|c|, c[0].id, c[|c| - 1].id, c[|c| - 1].hash))
  }

  predicate IsHashed(log: seq<Row>, tenant: Option<string>, i: nat) {
    i < |log| && log[i].entry.tenant == tenant && log[i].hash.Some?
  }

  function HashedRows(log: seq<Row>, tenant: Option<string>): set<nat> {
    set i | 0 <= i < |log| && IsHashed(log, tenant, i)
  }

  predicate Ordered(log: seq<Row>) {
    forall i, j | 0 <= i < j < |log| :: log[i].id < log[j].id
  }

  /** count(*), min(id), max(id) over the tenant's hashed rows, and the hash of the row with the greatest id. */
  ghost predicate Snapshot(log: seq<Row>, tenant: Option<string>, a: Anchor) {
    && a.rowCount == |HashedRows(log, tenant)|
    && (exists i: nat :: IsHashed(log, tenant, i) && log[i].id == a.head)
    && (exists i: nat :: IsHashed(log, tenant, i) && log[i].id == a.tail && log[i].hash == a.root)
    && forall i: nat :: IsHashed(log, tenant, i) ==> a.head <= log[i].id <= a.tail
  }

  /** The anchor is that snapshot, and there is one iff the tenant has a hashed row. */
  lemma {:induction false} AnchorMeans(log: seq<Row>, tenant: Option<string>)
    requires Ordered(log)
    ensures AnchorOf(log, tenant).None? <==> forall i: nat :: !IsHashed(log, tenant, i)
    ensures AnchorOf(log, tenant).Some? ==> Snapshot(log, tenant, AnchorOf(log, tenant).value)
  {
    if log == [] {
      assert HashedRows(log, tenant) == {};
    } else {
      var n := |log| - 1;
      AnchorMeans(log[..n], tenant);
      AnchorSnoc(log, tenant);
      hide AnchorOf, Snapshot;
      forall i: nat | i < n ensures IsHashed(log[..n], tenant, i) <==> IsHashed(log, tenant, i) { }
      if IsHashed(log, tenant, n) {
        SnapshotNext(log, log[..n], tenant, AnchorOf(log[..n], tenant));
      } else if AnchorOf(log[..n], tenant).Some? {
        SnapshotKept(log, tenant, AnchorOf(log[..n], tenant).value);
      }
    }
  }

  function Extended(a: Option<Anchor>, row: Row): Anchor {
    if a.None? then Anchor(1, row.id, row.id, row.hash) else Anchor(a.value.rowCount + 1, a.value.head, row.id, row.hash)
  }

  lemma SnapshotNext(log: seq<Row>, front: seq<Row>, tenant: Option<string>, a: Option<Anchor>)
    requires log != [] && front == log[..|log| - 1] && Ordered(log) && IsHashed(log, tenant, |log| - 1)
    requires a.None? <==> forall i: nat :: !IsHashed(front, tenant, i)
    requires a.Some? ==> Snapshot(front, tenant, a.value)
    ensures Snapshot(log, tenant, Extended(a, log[|log| - 1]))
  {
    var n := |log| - 1;
    forall i: nat | i < n ensures IsHashed(front, tenant, i) <==> IsHashed(log, tenant, i) { }
    assert forall i | 0 <= i < n :: log[i].id < log[n].id && front[i] == log[i];
    HashedNext(log, front, tenant);
    hide Ordered, IsHashed, HashedRows;
    if a.Some? {
      var h: nat :| IsHashed(front, tenant, h) && front[h].id == a.value.head;
      assert IsHashed(log, tenant, h) && log[h].id == a.value.head;
    }
  }

  lemma HashedNext(log: seq<Row>, front: seq<Row>, tenant: Option<string>)
    requires log != [] && front == log[..|log| - 1] && IsHashed(log, tenant, |log| - 1)
    ensures |HashedRows(log, tenant)| == |HashedRows(front, tenant)| + 1
    ensures (forall i: nat :: !IsHashed(front, tenant, i)) ==> |HashedRows(front, tenant)| == 0
  {
    var n := |log| - 1;
    forall i: nat | i < n ensures IsHashed(front, tenant, i) <==> IsHashed(log, tenant, i) { }
    hide IsHashed;
    assert HashedRows(log, tenant) == HashedRows(front, tenant) + {n};
    if forall i: nat :: !IsHashed(front, tenant, i) { assert HashedRows(front, tenant) == {}; }
  }

  lemma SnapshotKept(log: seq<Row>, tenant: Option<string>, a: Anchor)
    requires log != [] && !IsHashed(log, tenant, |log| - 1) && Snapshot(log[..|log| - 1], tenant, a)
    ensures Snapshot(log, tenant, a)
  {
    var n := |log| - 1;
    forall i: nat | i < n ensures IsHashed(log[..n], tenant, i) <==> IsHashed(log, tenant, i) { }
    assert HashedRows(log, tenant) == HashedRows(log[..n], tenant);
    var h: nat :| IsHashed(log[..n], tenant, h) && log[..n][h].id == a.head;
    var t: nat :| IsHashed(log[..n], tenant, t) && log[..n][t].id == a.tail && log[..n][t].hash == a.root;
    assert IsHashed(log, tenant, h) && log[h].id == a.head;
    assert IsHashed(log, tenant, t) && log[t].id == a.tail && log[t].hash == a.root;
  }

  lemma AnchorSnoc(log: seq<Row>, tenant: Option<string>)
    requires log != []
    ensures var n := |log| - 1; var a0 := AnchorOf(log[..n], tenant);
      AnchorOf(log, tenant) == if IsHashed(log, tenant, n) then Some(Extended(a0, log[n])) else a0
  {
    var n := |log| - 1;
    var c0 := ChainOf(log[..n], tenant);
    if log[n].entry.tenant == tenant {
      assert ChainOf(log, tenant) == c0 + [log[n]];
      assert (c0 + [log[n]])[..|c0|] == c0;
      HashedSnoc(c0, log[n]);
    } else {
      assert ChainOf(log, tenant) == c0;
    }
  }

  lemma HashedSnoc(c: seq<Row>, row: Row)
    ensures Hashed(c + [row]) == Hashed(c) + if row.hash.Some? then [row] else []
  {
    assert (c + [row])[..|c|] == c;
  }

  class AuditLog {
    var log: seq<Row>
    var next: nat
    var anchors: seq<(Option<string>, Anchor)>

    constructor ()
      ensures log == [] && anchors == [] && Valid()
    {
      log, next, anchors := [], 1, [];
    }

    /** Ids come from a sequence. */
    predicate Valid()
      reads this
    {
      Ordered(log) && forall i | 0 <= i < |log| :: log[i].id < next
    }

    /** `got` is the outcome of pg_try_advisory_xact_lock. */
    method Append(e: Entry, got: bool)
      modifies this`log, this`next
      ensures log == old(log) + [NewRow(old(log), old(next), e, got)] && next == old(next) + 1
      ensures old(Valid()) ==> Valid()
    {
      var prev: Option<Bytes> := None;
      if got {
        var last := TailHash(ChainOf(log, e.tenant));
        if last.Some? && last.value != Empty { prev := last; }
      }
      log := log + [Row(next, e, prev, Some(RowHash(prev, Canon(e))))];
      next := next + 1;
    }

    method Verify(tenant: Option<string>) returns (r: Report)
      ensures Reports(ChainOf(log, tenant), r)
    {
      r := VerifyRows(ChainOf(log, tenant));
    }

    method TakeAnchor(tenant: Option<string>) returns (a: Option<Anchor>)
      modifies this`anchors
      ensures a == AnchorOf(log, tenant)
      ensures anchors == old(anchors) + if a.Some? then [(tenant, a.value)] else []
      ensures Valid() ==> (a.Some? <==> exists i: nat :: IsHashed(log, tenant, i)) && (a.Some? ==> Snapshot(log, tenant, a.value))
    {
      if Valid() { AnchorMeans(log, tenant); }
      hide Ordered, AnchorOf, Snapshot;
      a := AnchorOf(log, tenant);
      if a.None? { return; }
      anchors := anchors + [(tenant, a.value)];
    }
  }

  // ---------- appends verify ----------

  datatype Call = Call(id: nat, entry: Entry, got: bool)

  function LogAfter(calls: seq<Call>): seq<Row> {
    if calls == [] then []
    else
      var log, c := LogAfter(calls[..|calls| - 1]), calls[|calls| - 1];
      log + [NewRow(log, c.id, c.entry, c.got)]
  }

  function CallsOf(calls: seq<Call>, tenant: Option<string>): seq<Call> {
    if calls == [] then []
    else
      var n := |calls| - 1;
      CallsOf(calls[..n], tenant) + if calls[n].entry.tenant == tenant then [calls[n]] else []
  }

  ghost predicate LinkedAt(c: seq<Row>, own: seq<Call>, i: nat)
    requires i < |c| == |own|
  {
    && c[i].entry == own[i].entry
    && c[i].hash == Some(RowHash(c[i].prev, Canon(c[i].entry)))
    && c[i].prev == if i > 0 && own[i].got then c[i - 1].hash else None
  }

  ghost predicate Linked(c: seq<Row>, own: seq<Call>) {
    |c| == |own| && forall i | 0 <= i < |c| :: LinkedAt(c, own, i)
  }

  lemma LinkedNext(c: seq<Row>, own: seq<Call>, row: Row, call: Call)
    requires Linked(c, own) && row.entry == call.entry && row.hash == Some(RowHash(row.prev, Canon(row.entry)))
    requires row.prev == if c != [] && call.got then c[|c| - 1].hash else None
    ensures Linked(c + [row], own + [call])
  {
    hide Canon;
    forall i | 0 <= i < |c + [row]| ensures LinkedAt(c + [row], own + [call], i) {
      if i < |c| { assert LinkedAt(c, own, i); }
    }
  }

  lemma {:induction false} AppendsLink(calls: seq<Call>, tenant: Option<string>)
    ensures Linked(ChainOf(LogAfter(calls), tenant), CallsOf(calls, tenant))
  {
    if calls != [] {
      var n := |calls| - 1;
      var log, call := LogAfter(calls[..n]), calls[n];
      AppendsLink(calls[..n], tenant);
      var row := NewRow(log, call.id, call.entry, call.got);
      var c, own := ChainOf(log, tenant), CallsOf(calls[..n], tenant);
      assert LogAfter(calls) == log + [row] && (log + [row])[..|log|] == log;
      if call.entry.tenant == tenant {
        assert ChainOf(log + [row], tenant) == c + [row] && CallsOf(calls, tenant) == own + [call];
        if c != [] { assert LinkedAt(c, own, |c| - 1); }
        LinkedNext(c, own, row, call);
      } else {
        assert ChainOf(log + [row], tenant) == c && CallsOf(calls, tenant) == own;
      }
    }
  }

  /** Any serial run of appends, with tenants interleaved and locks missed at will, verifies; the gaps are
      exactly the misses after the tenant's first row. */
  lemma AppendsVerify(calls: seq<Call>, tenant: Option<string>)
    ensures var c, own := ChainOf(LogAfter(calls), tenant), CallsOf(calls, tenant);
      && Verified(c) && |c| == |own| && (forall i | 0 <= i < |c| :: c[i].entry == own[i].entry)
      && Gaps(c) == set i | 0 < i < |own| && !own[i].got
  {
    var c, own := ChainOf(LogAfter(calls), tenant), CallsOf(calls, tenant);
    AppendsLink(calls, tenant);
    hide LogAfter, ChainOf, CallsOf, Canon;
    forall i: nat | i < |c| ensures !MismatchAt(c, i) && !BreakAt(c, i) && (GapAt(c, i) <==> 0 < i && !own[i].got) {
      assert LinkedAt(c, own, i);
      if i > 0 { assert LinkedAt(c, own, i - 1); }
    }
    forall i | 0 <= i < |c| ensures c[i].entry == own[i].entry {
      assert LinkedAt(c, own, i);
    }
  }

  // ---------- the anchor commits ----------

  function Payloads(c: seq<Row>): (ps: seq<Payload>)
    ensures |ps| == |c|
  {
    seq(|c|, i requires 0 <= i < |c| => Canon(c[i].entry))
  }

  predicate Sealed(c: seq<Row>) {
    Verified(c) && Gaps(c) == {}
  }

  /** In a verified chain without gaps every row carries the digest of its payload and its predecessor. */
  lemma SealedAt(c: seq<Row>, i: nat)
    requires Sealed(c) && i < |c|
    ensures c[i].hash == Some(RowHash(c[i].prev, Canon(c[i].entry)))
    ensures i > 0 ==> c[i - 1].hash == Some(RowHash(c[i - 1].prev, Canon(c[i - 1].entry))) && c[i].prev == c[i - 1].hash
  {
    assert i !in Mismatches(c) && i !in Gaps(c) && i !in Breaks(c);
    if i > 0 {
      assert i - 1 !in Mismatches(c) && i - 1 !in Gaps(c);
    }
  }

  predicate Suffix<T(==)>(a: seq<T>, b: seq<T>) {
    |a| <= |b| && b[|b| - |a|..] == a
  }

  /** Equal hashes at two positions force equal payloads there and before, as far as both chains reach. */
  lemma {:induction false} HashesCommit(a: seq<Row>, b: seq<Row>, i: nat, j: nat, k: nat)
    requires Sealed(a) && Sealed(b) && i < |a| && j < |b| && a[i].hash == b[j].hash && k <= i && k <= j
    ensures Canon(a[i - k].entry) == Canon(b[j - k].entry) && a[i - k].hash == b[j - k].hash
  {
    SealedAt(a, i);
    SealedAt(b, j);
    hide Canon, Sealed;
    if k > 0 {
      HashesCommit(a, b, i - 1, j - 1, k - 1);
    }
  }

  /** A head without predecessor cannot match an inner row of a sealed chain. */
  lemma HeadsCommit(a: seq<Row>, b: seq<Row>)
    requires Sealed(a) && Sealed(b) && a != [] && b != [] && a[|a| - 1].hash == b[|b| - 1].hash && |a| <= |b|
    requires a[0].prev == None
    ensures |a| == |b|
  {
    HashesCommit(a, b, |a| - 1, |b| - 1, |a| - 1);
    SealedAt(a, 0);
    SealedAt(b, |b| - |a|);
  }

  /** Two verified chains without gaps that end in the same hash: one's payloads are a suffix of the
      other's. They are equal when the row counts agree, or when both start without a predecessor. */
  lemma TailCommits(a: seq<Row>, b: seq<Row>)
    requires Sealed(a) && Sealed(b) && a != [] && b != [] && a[|a| - 1].hash == b[|b| - 1].hash
    ensures Suffix(Payloads(a), Payloads(b)) || Suffix(Payloads(b), Payloads(a))
    ensures |a| == |b| || a[0].prev == None == b[0].prev ==> Payloads(a) == Payloads(b)
    ensures TailsAgree(a, b) && (a[0].prev == None == b[0].prev ==> |a| == |b|)
  {
    CommitsTails(a, b);
    hide Canon, TailsAgree;
    if |a| <= |b| {
      TailSuffix(a, b);
      if a[0].prev == None { HeadsCommit(a, b); }
    } else {
      TailSuffix(b, a);
      if b[0].prev == None { HeadsCommit(b, a); }
    }
  }

  /** Counted from the end, as far as both reach, the rows attest the same. */
  ghost predicate TailsAgree(a: seq<Row>, b: seq<Row>) {
    forall k: nat | k < |a| && k < |b| :: AgreeAt(a, b, k)
  }

  predicate AgreeAt(a: seq<Row>, b: seq<Row>, k: nat)
    requires k < |a| && k < |b|
  {
    SameAudited(a[|a| - 1 - k].entry, b[|b| - 1 - k].entry)
  }

  lemma CommitsTails(a: seq<Row>, b: seq<Row>)
    requires Sealed(a) && Sealed(b) && a != [] && b != [] && a[|a| - 1].hash == b[|b| - 1].hash
    ensures TailsAgree(a, b)
  {
    hide Sealed, Canon, SameAudited;
    forall k: nat | k < |a| && k < |b| ensures AgreeAt(a, b, k) {
      HashesCommit(a, b, |a| - 1, |b| - 1, k);
      CanonCovers(a[|a| - 1 - k].entry, b[|b| - 1 - k].entry);
    }
  }

  lemma TailSuffix(a: seq<Row>, b: seq<Row>)
    requires Sealed(a) && Sealed(b) && 0 < |a| <= |b| && a[|a| - 1].hash == b[|b| - 1].hash
    ensures Suffix(Payloads(a), Payloads(b))
  {
    forall i | 0 <= i < |a| ensures Payloads(a)[i] == Payloads(b)[|b| - |a|..][i] {
      HashesCommit(a, b, |a| - 1, |b| - 1, |a| - 1 - i);
    }
  }

  lemma {:induction false} HashedAll(c: seq<Row>)
    requires forall i | 0 <= i < |c| :: c[i].hash.Some?
    ensures Hashed(c) == c
  {
    if c != [] {
      HashedAll(c[..|c| - 1]);
      assert c == c[..|c| - 1] + [c[|c| - 1]];
    }
  }

  lemma SealedAnchor(log: seq<Row>, tenant: Option<string>)
    requires var c := ChainOf(log, tenant); Sealed(c) && c != []
    ensures var c := ChainOf(log, tenant); AnchorOf(log, tenant) == Some(Anchor(|c|, c[0].id, c[|c| - 1].id, c[|c| - 1].hash))
  {
    var c := ChainOf(log, tenant);
    forall i | 0 <= i < |c| ensures c[i].hash.Some? { SealedAt(c, i); }
    HashedAll(c);
  }

  /** An anchor pins the whole history of a gap-free chain: whatever log verifies later with the same root
      hash and row count holds the same payloads in the same order. */
  lemma AnchorCommits(log: seq<Row>, log': seq<Row>, tenant: Option<string>)
    requires Sealed(ChainOf(log, tenant)) && Sealed(ChainOf(log', tenant))
    requires var a, a' := AnchorOf(log, tenant), AnchorOf(log', tenant);
      a.Some? && a'.Some? && a.value.root == a'.value.root && a.value.rowCount == a'.value.rowCount
    ensures Payloads(ChainOf(log, tenant)) == Payloads(ChainOf(log', tenant))
    ensures var c, c' := ChainOf(log, tenant), ChainOf(log', tenant);
      |c| == |c'| && forall i | 0 <= i < |c| :: SameAudited(c[i].entry, c'[i].entry)
  {
    SealedAnchor(log, tenant);
    SealedAnchor(log', tenant);
    hide Sealed, AnchorOf, ChainOf, SameAudited, Canon, TailsAgree;
    ChainsCommit(ChainOf(log, tenant), ChainOf(log', tenant));
  }

  lemma ChainsCommit(c: seq<Row>, c': seq<Row>)
    requires Sealed(c) && Sealed(c') && c != [] && |c| == |c'| && c[|c| - 1].hash == c'[|c'| - 1].hash
    ensures Payloads(c) == Payloads(c') && forall i | 0 <= i < |c| :: SameAudited(c[i].entry, c'[i].entry)
  {
    TailCommits(c, c');
    hide Sealed, SameAudited, Payloads;
    forall i | 0 <= i < |c| ensures SameAudited(c[i].entry, c'[i].entry) {
      assert AgreeAt(c, c', |c| - 1 - i);
    }
  }

  // ---------- what verification alone detects ----------

  /** Rewriting the fields of one hashed row is found exactly when one of the columns changes by more than the order
      of its ids or the way an address is written. */
  lemma FieldTamper(c: seq<Row>, i: nat, e: Entry)
    requires Verified(c) && i < |c|
    ensures Verified(c[i := c[i].(entry := e)]) <==> c[i].hash.None? || SameAudited(e, c[i].entry)
  {
    CanonCovers(e, c[i].entry);
    hide Canon, SameAudited;
    var c' := c[i := c[i].(entry := e)];
    assert i !in Mismatches(c);
    forall j: nat | j < |c| ensures !BreakAt(c', j) && (j != i ==> !MismatchAt(c', j)) {
      assert j !in Breaks(c) && j !in Mismatches(c);
    }
    if c[i].hash.Some? && Canon(e) != Canon(c[i].entry) {
      assert i in Mismatches(c');
    }
  }

  /** Cutting rows off either end of a sealed chain goes unnoticed without an anchor. */
  lemma WindowVerifies(c: seq<Row>, lo: nat, hi: nat)
    requires Sealed(c) && lo <= hi <= |c|
    ensures Sealed(c[lo..hi])
  {
    var w := c[lo..hi];
    forall i: nat | i < |w| ensures !MismatchAt(w, i) && !BreakAt(w, i) && !GapAt(w, i) {
      SealedAt(c, lo + i);
    }
  }

  /** How many rows a digest commits to. */
  function Depth(b: Bytes): nat {
    match b
    case Digest(Some(p), _) => Depth(p) + 1
    case _ => 0
  }

  lemma {:induction false} DepthGrows(c: seq<Row>, i: nat, j: nat)
    requires Sealed(c) && i < j < |c|
    ensures c[i].hash.Some? && c[j].hash.Some? && Depth(c[i].hash.value) < Depth(c[j].hash.value)
  {
    SealedAt(c, j);
    hide Sealed, Canon;
    if i < j - 1 { DepthGrows(c, i, j - 1); }
  }

  /** Rows removed from inside a sealed chain are always found: exactly one break, at the first row after the cut. */
  lemma RemovalShows(c: seq<Row>, lo: nat, hi: nat)
    requires Sealed(c) && 0 < lo < hi < |c|
    ensures var c' := c[..lo] + c[hi..]; Breaks(c') == {lo} && Mismatches(c') == {} && !Verified(c')
  {
    var c' := c[..lo] + c[hi..];
    forall i: nat | i < |c'| ensures !MismatchAt(c', i) && (BreakAt(c', i) <==> i == lo) {
      SealedAt(c, if i < lo then i else i - lo + hi);
      if i == lo { CutBreaks(c, lo, hi); }
    }
    assert lo in Breaks(c');
  }

  lemma CutBreaks(c: seq<Row>, lo: nat, hi: nat)
    requires Sealed(c) && 0 < lo < hi < |c|
    ensures c[hi].hash.Some? && c[hi].prev.Some? && c[lo - 1].hash.Some? && c[hi].prev != c[lo - 1].hash
  {
    SealedAt(c, hi);
    DepthGrows(c, lo - 1, hi - 1);
    hide Sealed, Canon;
  }

  /** An anchor does show a cut at the end: no two rows of a sealed chain carry the same hash. */
  lemma TruncationShows(log: seq<Row>, log': seq<Row>, tenant: Option<string>, k: nat)
    requires var c := ChainOf(log, tenant); Sealed(c) && 0 < k < |c| && ChainOf(log', tenant) == c[..k]
    ensures var a, a' := AnchorOf(log, tenant), AnchorOf(log', tenant);
      a.Some? && a'.Some? && a.value.root != a'.value.root
  {
    var c := ChainOf(log, tenant);
    hide ChainOf, Sealed, AnchorOf, Depth;
    assert Sealed(c[..k]) by {
      WindowVerifies(c, 0, k);
      assert c[0..k] == c[..k];
    }
    SealedAnchor(log, tenant);
    SealedAnchor(log', tenant);
    DepthGrows(c, k - 1, |c| - 1);
    assert c[..k][k - 1] == c[k - 1];
  }
}
