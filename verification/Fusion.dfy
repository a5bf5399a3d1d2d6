/** Reciprocal rank fusion of the two retrieval paths (app/retrieval/fusion.py), over exact reals. */
module Fusion {
  import opened Tables

  datatype Hit = Hit(chunk: string, weight: real, body: string)

  datatype Bucket = Bucket(hit: Hit, score: real, paths: set<char>)

  datatype Fused = Fused(hit: Hit, score: real, path: string)

  // ---------- the formula ----------

  /** Index of the first hit of a chunk, or the length of the list. */
  function Rank(hits: seq<Hit>, chunk: string): (r: nat)
    ensures r <= |hits| && (r < |hits| ==> hits[r].chunk == chunk)
    ensures forall j | 0 <= j < r :: hits[j].chunk != chunk
  {
    if hits == [] || hits[0].chunk == chunk then 0 else Rank(hits[1..], chunk) + 1
  }

  predicate Found(hits: seq<Hit>, chunk: string) {
    Rank(hits, chunk) < |hits|
  }

  /** weight / (k + rank) of the first occurrence. */
  function Part(hits: seq<Hit>, k: nat, chunk: string): real
    requires k >= 1
  {
    var r := Rank(hits, chunk);
    if r < |hits| then hits[r].weight / (k + r) as real else 0.0
  }

  function FirstHit(hits: seq<Hit>, chunk: string): Hit
    requires Found(hits, chunk)
  {
    hits[Rank(hits, chunk)]
  }

  function PathOf(a: seq<Hit>, b: seq<Hit>, chunk: string): string {
    (if Found(a, chunk) then "a" else "") + (if Found(b, chunk) then "b" else "")
  }

  function HitOf(a: seq<Hit>, b: seq<Hit>, chunk: string): Hit
    requires Found(a, chunk) || Found(b, chunk)
  {
    if Found(a, chunk) then FirstHit(a, chunk) else FirstHit(b, chunk)
  }

  function FusedOf(a: seq<Hit>, b: seq<Hit>, k: nat, chunk: string): Fused
    requires k >= 1 && (Found(a, chunk) || Found(b, chunk))
  {
    Fused(HitOf(a, b, chunk), Part(a, k, chunk) + Part(b, k, chunk), PathOf(a, b, chunk))
  }

  /** Chunks in the order of their first appearance behind those already known. */
  function Appear(known: seq<string>, hits: seq<Hit>): (r: seq<string>)
    ensures forall c :: c in r <==> c in known || Found(hits, c)
    ensures Distinct(known) ==> Distinct(r)
  {
    if hits == [] then known
    else
      var n := |hits| - 1;
      var r := Appear(known, hits[..n]);
      assert forall c :: Found(hits, c) <==> Found(hits[..n], c) || c == hits[n].chunk by {
        forall c ensures Found(hits, c) <==> Found(hits[..n], c) || c == hits[n].chunk { RankPrefix(hits, n, c); }
      }
      if hits[n].chunk in r then r else r + [hits[n].chunk]
  }

  lemma RankPrefix(hits: seq<Hit>, n: nat, chunk: string)
    requires n < |hits|
    ensures Rank(hits[..n + 1], chunk) == if Found(hits[..n], chunk) then Rank(hits[..n], chunk) else if hits[n].chunk == chunk then n else n + 1
    ensures hits[..|hits|] == hits
  {
    var p, q := Rank(hits[..n], chunk), Rank(hits[..n + 1], chunk);
    assert p < n ==> hits[..n + 1][p] == hits[..n][p];
    assert q < n ==> hits[..n][q] == hits[..n + 1][q];
  }

  function Place(order: seq<string>, chunk: string): (p: nat)
    ensures p <= |order| && (chunk in order ==> p < |order| && order[p] == chunk)
  {
    if order == [] || order[0] == chunk then 0 else Place(order[1..], chunk) + 1
  }

  /** Higher score first; equal scores in the order of first appearance. */
  predicate Before(order: seq<string>, x: Fused, y: Fused) {
    x.score > y.score || (x.score == y.score && Place(order, x.hit.chunk) < Place(order, y.hit.chunk))
  }

  predicate Ranked(order: seq<string>, out: seq<Fused>) {
    forall i, j | 0 <= i < j < |out| :: Before(order, out[i], out[j])
  }

  /** One entry for each chunk of either list, with the formula's values, ranked. */
  ghost predicate Fuses(a: seq<Hit>, b: seq<Hit>, k: nat, out: seq<Fused>)
    requires k >= 1
  {
    && (forall c :: Found(a, c) || Found(b, c) ==> exists i :: 0 <= i < |out| && out[i] == FusedOf(a, b, k, c))
    && (forall i | 0 <= i < |out| :: var c := out[i].hit.chunk; (Found(a, c) || Found(b, c)) && out[i] == FusedOf(a, b, k, c))
    && Ranked(Appear(Appear([], a), b), out)
  }

  // ---------- sorted(..., reverse=True) ----------

  /** Behind the last element whose score is not lower. */
  function Insert(s: seq<Fused>, x: Fused): (r: seq<Fused>)
    ensures forall y :: y in r <==> y in s || y == x
  {
    if s == [] then [x]
    else
      var n := |s| - 1;
      assert s == s[..n] + [s[n]];
      if s[n].score >= x.score then s + [x] else Insert(s[..n], x) + [s[n]]
  }

  function SortDesc(s: seq<Fused>): (r: seq<Fused>)
    ensures forall y :: y in r <==> y in s
  {
    if s == [] then []
    else
      assert s == s[..|s| - 1] + [s[|s| - 1]];
      Insert(SortDesc(s[..|s| - 1]), s[|s| - 1])
  }

  lemma {:induction false} InsertRanked(order: seq<string>, s: seq<Fused>, x: Fused)
    requires Ranked(order, s) && forall y :: y in s ==> Place(order, y.hit.chunk) < Place(order, x.hit.chunk)
    ensures Ranked(order, Insert(s, x))
  {
    if s != [] {
      var n := |s| - 1;
      if s[n].score < x.score {
        InsertRanked(order, s[..n], x);
        var t := Insert(s[..n], x);
        forall i | 0 <= i < |t| ensures Before(order, t[i], s[n]) {
          assert t[i] in t;
          if t[i] in s[..n] {
            var j :| 0 <= j < n && s[..n][j] == t[i];
            assert Before(order, s[j], s[n]);
          }
        }
      } else {
        forall i | 0 <= i < |s| ensures Before(order, s[i], x) {
          assert s[i] in s;
          if i < n { assert Before(order, s[i], s[n]); }
        }
      }
    }
  }

  lemma PlaceAt(order: seq<string>, i: nat)
    requires Distinct(order) && i < |order|
    ensures Place(order, order[i]) == i
  {
    assert order[i] in order;
  }

  lemma {:induction false} SortRanked(order: seq<string>, s: seq<Fused>)
    requires Distinct(order) && |s| <= |order| && forall i | 0 <= i < |s| :: s[i].hit.chunk == order[i]
    ensures Ranked(order, SortDesc(s))
  {
    if s != [] {
      var n := |s| - 1;
      SortRanked(order, s[..n]);
      PlaceAt(order, n);
      forall y | y in SortDesc(s[..n]) ensures Place(order, y.hit.chunk) < n {
        var i :| 0 <= i < n && s[..n][i] == y;
        PlaceAt(order, i);
      }
      InsertRanked(order, SortDesc(s[..n]), s[n]);
    }
  }

  // ---------- the merge ----------

  function Joined(paths: set<char>): string {
    (if 'a' in paths then "a" else "") + (if 'b' in paths then "b" else "")
  }

  /** What `add` makes of the buckets. */
  ghost predicate Added(before: map<string, Bucket>, after: map<string, Bucket>, hits: seq<Hit>, tag: char, k: nat)
    requires k >= 1
  {
    && (forall c :: c in after <==> c in before || Found(hits, c))
    && (forall c | c in after :: after[c] == Grown(before, hits, tag, k, c))
  }

  function Grown(before: map<string, Bucket>, hits: seq<Hit>, tag: char, k: nat, c: string): Bucket
    requires k >= 1 && (c in before || Found(hits, c))
  {
    var known := if c in before then before[c] else Bucket(FirstHit(hits, c), 0.0, {});
    Bucket(known.hit, known.score + Part(hits, k, c), if Found(hits, c) then known.paths + {tag} else known.paths)
  }

  lemma PrefixNext(hits: seq<Hit>, n: nat, k: nat, c: string)
    requires k >= 1 && n < |hits|
    ensures Found(hits[..n + 1], c) <==> Found(hits[..n], c) || hits[n].chunk == c
    ensures Found(hits[..n], c) ==> FirstHit(hits[..n + 1], c) == FirstHit(hits[..n], c)
    ensures !Found(hits[..n], c) && hits[n].chunk == c ==> FirstHit(hits[..n + 1], c) == hits[n]
    ensures Part(hits[..n + 1], k, c)
      == if Found(hits[..n], c) then Part(hits[..n], k, c) else if hits[n].chunk == c then hits[n].weight / (k + n) as real else 0.0
    ensures !Found(hits[..n], c) ==> Part(hits[..n], k, c) == 0.0
  {
    RankPrefix(hits, n, c);
  }

  function Credit(b: Bucket, h: Hit, k: nat, n: nat, tag: char): Bucket
    requires k >= 1
  {
    Bucket(b.hit, b.score + h.weight / (k + n) as real, b.paths + {tag})
  }

  lemma AddedNext(before: map<string, Bucket>, now: map<string, Bucket>, hits: seq<Hit>, n: nat, tag: char, k: nat)
    requires k >= 1 && n < |hits| && Added(before, now, hits[..n], tag, k)
    ensures var h := hits[n]; var b := if h.chunk in now then now[h.chunk] else Bucket(h, 0.0, {});
      Added(before, if Found(hits[..n], h.chunk) then now else now[h.chunk := Credit(b, h, k, n, tag)], hits[..n + 1], tag, k)
  {
    hide Part, Rank, Found, FirstHit;
    forall c
      ensures Found(hits[..n + 1], c) <==> Found(hits[..n], c) || hits[n].chunk == c
      ensures (c in before || Found(hits[..n], c)) && (c != hits[n].chunk || Found(hits[..n], c)) ==>
        Grown(before, hits[..n + 1], tag, k, c) == Grown(before, hits[..n], tag, k, c)
    {
      PrefixNext(hits, n, k, c);
    }
    PrefixNext(hits, n, k, hits[n].chunk);
  }

  class RrfMerge {
    const k: nat
    var order: seq<string>
    var buckets: map<string, Bucket>

    constructor (k: nat)
      ensures this.k == k && order == [] && buckets == map[]
    {
      this.k := k;
      order, buckets := [], map[];
    }

    /** buckets.setdefault(...) and the credit for one hit. */
    method Count(h: Hit, rank: nat, tag: char)
      requires k >= 1 && forall c :: c in order <==> c in buckets
      modifies this
      ensures var known := h.chunk in old(buckets);
        && order == (if known then old(order) else old(order) + [h.chunk])
        && buckets == old(buckets)[h.chunk := Credit(if known then old(buckets)[h.chunk] else Bucket(h, 0.0, {}), h, k, rank, tag)]
      ensures forall c :: c in order <==> c in buckets
    {
      if h.chunk !in buckets {
        order := order + [h.chunk];
        buckets := buckets[h.chunk := Bucket(h, 0.0, {})];
      }
      var b := buckets[h.chunk];
      buckets := buckets[h.chunk := Bucket(b.hit, b.score + h.weight / (k + rank) as real, b.paths + {tag})];
    }

    /** Adds one path's list; only the first hit of each chunk counts. */
    method Add(hits: seq<Hit>, tag: char)
      requires k >= 1 && forall c :: c in order <==> c in buckets
      modifies this
      ensures order == Appear(old(order), hits) && Added(old(buckets), buckets, hits, tag, k)
      ensures forall c :: c in order <==> c in buckets
    {
      hide Part, Rank, Found, FirstHit, Grown;
      var seen: set<string> := {};
      NothingYet(buckets, hits, tag, k);
      for n := 0 to |hits|
        invariant forall c :: c in seen <==> Found(hits[..n], c)
        invariant order == Appear(old(order), hits[..n])
        invariant forall c :: c in order <==> c in buckets
        invariant Added(old(buckets), buckets, hits[..n], tag, k)
      {
        AddedNext(old(buckets), buckets, hits, n, tag, k);
        AppearNext(old(order), hits, n);
        hide Added, Appear;
        var h := hits[n];
        if h.chunk !in seen {
          seen := seen + {h.chunk};
          Count(h, n, tag);
        }
      }
      assert hits[..|hits|] == hits;
    }

    method Merge(a: seq<Hit>, b: seq<Hit>) returns (out: seq<Fused>)
      requires k >= 1 && order == [] && buckets == map[]
      modifies this
      ensures Fuses(a, b, k, out) && Merges(a, b, k, out)
    {
      hide Merges, Part, Rank, Found, FirstHit, Grown, Added, FusedOf, SortDesc, Appear, Fuses;
      Add(a, 'a');
      ghost var first := buckets;
      Add(b, 'b');
      forall c | c in buckets
        ensures Found(a, c) || Found(b, c)
        ensures Fused(buckets[c].hit, buckets[c].score, Joined(buckets[c].paths)) == FusedOf(a, b, k, c)
      {
        BothAdded(a, b, k, first, buckets, c);
      }
      var items := [];
      for i := 0 to |order|
        invariant |items| == i && forall j | 0 <= j < i :: items[j] == FusedOf(a, b, k, order[j])
      {
        assert order[i] in order;
        var x := buckets[order[i]];
        items := items + [Fused(x.hit, x.score, Joined(x.paths))];
      }
      out := SortDesc(items);
      SortedFuses(a, b, k, items);
      FusesMerges(a, b, k, out);
    }
  }

  lemma NothingYet(buckets: map<string, Bucket>, hits: seq<Hit>, tag: char, k: nat)
    requires k >= 1
    ensures Added(buckets, buckets, hits[..0], tag, k) && forall c :: !Found(hits[..0], c)
  {
  }

  lemma AppearNext(known: seq<string>, hits: seq<Hit>, n: nat)
    requires n < |hits|
    ensures var r, c := Appear(known, hits[..n]), hits[n].chunk;
      && Appear(known, hits[..n + 1]) == (if c in r then r else r + [c])
      && forall d :: Found(hits[..n + 1], d) <==> Found(hits[..n], d) || d == c
  {
    assert hits[..n + 1][..n] == hits[..n];
    forall d ensures Found(hits[..n + 1], d) <==> Found(hits[..n], d) || d == hits[n].chunk { PrefixNext(hits, n, 1, d); }
  }

  lemma BothAdded(a: seq<Hit>, b: seq<Hit>, k: nat, first: map<string, Bucket>, all: map<string, Bucket>, c: string)
    requires k >= 1 && Added(map[], first, a, 'a', k) && Added(first, all, b, 'b', k) && c in all
    ensures Found(a, c) || Found(b, c)
    ensures Fused(all[c].hit, all[c].score, Joined(all[c].paths)) == FusedOf(a, b, k, c)
  {
    hide Rank, FirstHit;
    assert !Found(a, c) ==> Part(a, k, c) == 0.0;
  }

  /** Sorting the entries in order of appearance gives the ranking. */
  lemma SortedFuses(a: seq<Hit>, b: seq<Hit>, k: nat, items: seq<Fused>)
    requires k >= 1
    requires |items| == |Appear(Appear([], a), b)|
    requires forall i | 0 <= i < |items| :: var c := Appear(Appear([], a), b)[i];
      (Found(a, c) || Found(b, c)) && items[i] == FusedOf(a, b, k, c)
    ensures Fuses(a, b, k, SortDesc(items))
  {
    var order, out := Appear(Appear([], a), b), SortDesc(items);
    hide Part, Rank, Appear, SortDesc;
    SortRanked(order, items);
    forall c | Found(a, c) || Found(b, c) ensures exists i :: 0 <= i < |out| && out[i] == FusedOf(a, b, k, c) {
      assert c in order;
      var i :| 0 <= i < |order| && order[i] == c;
      assert items[i] in items && items[i] in out;
    }
    forall i | 0 <= i < |out|
      ensures var c := out[i].hit.chunk; (Found(a, c) || Found(b, c)) && out[i] == FusedOf(a, b, k, c)
    {
      assert out[i] in out;
      var j :| 0 <= j < |items| && items[j] == out[i];
    }
  }

  /** No chunk appears twice. */
  lemma FusedOnce(a: seq<Hit>, b: seq<Hit>, k: nat, out: seq<Fused>, i: nat, j: nat)
    requires k >= 1 && Fuses(a, b, k, out) && i < j < |out|
    ensures out[i].hit.chunk != out[j].hit.chunk
  {
    assert Before(Appear(Appear([], a), b), out[i], out[j]);
  }

  lemma BeforeAsymmetric(order: seq<string>, x: Fused, y: Fused)
    ensures !(Before(order, x, y) && Before(order, y, x))
  {
  }

  lemma SomeMember(s: seq<Fused>)
    ensures s == [] || exists x :: x in s
  {
    if s != [] { assert s[0] in s; }
  }

  lemma FirstLeads(order: seq<string>, s: seq<Fused>, x: Fused)
    requires Ranked(order, s) && x in s
    ensures s != [] && (x == s[0] || Before(order, s[0], x))
  {
    var i :| 0 <= i < |s| && s[i] == x;
  }

  lemma {:induction false} RankedUnique(order: seq<string>, s: seq<Fused>, t: seq<Fused>)
    requires Ranked(order, s) && Ranked(order, t) && forall x :: x in s <==> x in t
    ensures s == t
  {
    SomeMember(s);
    SomeMember(t);
    if s != [] {
      FirstLeads(order, s, t[0]);
      FirstLeads(order, t, s[0]);
      BeforeAsymmetric(order, s[0], t[0]);
      TailMembers(order, s);
      TailMembers(order, t);
      hide Before, Ranked;
      RankedUnique(order, s[1..], t[1..]);
      assert s == [s[0]] + s[1..] && t == [t[0]] + t[1..];
    }
  }

  lemma TailMembers(order: seq<string>, s: seq<Fused>)
    requires Ranked(order, s) && s != []
    ensures Ranked(order, s[1..]) && forall x :: x in s[1..] <==> x in s && x != s[0]
  {
    forall i | 1 <= i < |s| ensures s[i] != s[0] { assert Before(order, s[0], s[i]); }
  }

  /** The description determines the output: two merges of the same lists are equal. */
  lemma FusesUnique(a: seq<Hit>, b: seq<Hit>, k: nat, out: seq<Fused>, out': seq<Fused>)
    requires k >= 1 && Fuses(a, b, k, out) && Fuses(a, b, k, out')
    ensures out == out'
  {
    hide FusedOf, Found, Appear;
    forall x ensures x in out <==> x in out' {
      if x in out { Shared(a, b, k, out, out', x); }
      if x in out' { Shared(a, b, k, out', out, x); }
    }
    RankedUnique(Appear(Appear([], a), b), out, out');
  }

  lemma Shared(a: seq<Hit>, b: seq<Hit>, k: nat, out: seq<Fused>, out': seq<Fused>, x: Fused)
    requires k >= 1 && Fuses(a, b, k, out) && Fuses(a, b, k, out') && x in out
    ensures x in out'
  {
    hide FusedOf, Found, Appear;
    var i :| 0 <= i < |out| && out[i] == x;
    var j :| 0 <= j < |out'| && out'[j] == FusedOf(a, b, k, x.hit.chunk);
  }

  // ---------- the entries, in terms of the lists ----------

  /** The chunk's first hit in the list is the r-th. */
  predicate FirstAt(hits: seq<Hit>, chunk: string, r: nat) {
    r < |hits| && hits[r].chunk == chunk && forall j | 0 <= j < r :: hits[j].chunk != chunk
  }

  predicate Absent(hits: seq<Hit>, chunk: string) {
    forall j | 0 <= j < |hits| :: hits[j].chunk != chunk
  }

  lemma RankMeans(hits: seq<Hit>, chunk: string)
    ensures Absent(hits, chunk) <==> !Found(hits, chunk)
    ensures forall r: nat :: FirstAt(hits, chunk, r) <==> r == Rank(hits, chunk) < |hits|
  {
  }

  /** One entry: with the hit, the summed shares and the tags that the chunk's first places in the two lists give. */
  ghost predicate IsEntry(a: seq<Hit>, b: seq<Hit>, k: nat, x: Fused)
    requires k >= 1
  {
    var c := x.hit.chunk;
    || (exists r: nat, s: nat :: FirstAt(a, c, r) && FirstAt(b, c, s)
          && x == Fused(a[r], a[r].weight / (k + r) as real + b[s].weight / (k + s) as real, "ab"))
    || (Absent(b, c) && exists r: nat :: FirstAt(a, c, r) && x == Fused(a[r], a[r].weight / (k + r) as real, "a"))
    || (Absent(a, c) && exists s: nat :: FirstAt(b, c, s) && x == Fused(b[s], b[s].weight / (k + s) as real, "b"))
  }

  lemma EntryMeans(a: seq<Hit>, b: seq<Hit>, k: nat, c: string)
    requires k >= 1 && (Found(a, c) || Found(b, c))
    ensures FusedOf(a, b, k, c).hit.chunk == c && IsEntry(a, b, k, FusedOf(a, b, k, c))
  {
    hide Rank, FirstAt, Absent;
    RankMeans(a, c);
    RankMeans(b, c);
    var r, s := Rank(a, c), Rank(b, c);
    if Found(a, c) && Found(b, c) {
      assert FirstAt(a, c, r) && FirstAt(b, c, s);
    } else if Found(a, c) {
      assert FirstAt(a, c, r) && Absent(b, c);
    } else {
      assert FirstAt(b, c, s) && Absent(a, c);
    }
  }

  /** Where a chunk first appears when the second list is read after the first. */
  lemma {:induction false} AppearPlaces(known: seq<string>, hits: seq<Hit>, i: nat, j: nat)
    requires Distinct(known) && i < j < |Appear(known, hits)|
    ensures var r := Appear(known, hits);
      && (j < |known| ==> r[i] == known[i] && r[j] == known[j])
      && (j >= |known| ==> Found(hits, r[j]) && r[j] !in known)
      && (i >= |known| ==> Found(hits, r[i]) && Rank(hits, r[i]) < Rank(hits, r[j]))
      && (i < |known| ==> r[i] == known[i])
  {
    hide Found;
    if hits != [] {
      var n := |hits| - 1;
      var front := Appear(known, hits[..n]);
      assert hits[..n + 1] == hits;
      if j < |front| {
        AppearPlaces(known, hits[..n], i, j);
        RankGrows(hits, front[i]);
        RankGrows(hits, front[j]);
      } else {
        assert j == |front| && Appear(known, hits)[j] == hits[n].chunk;
        KnownKept(known, hits[..n]);
        RankGrows(hits, hits[n].chunk);
        if i >= |known| { RankGrows(hits, front[i]); }
      }
    }
  }

  lemma RankGrows(hits: seq<Hit>, c: string)
    requires hits != []
    ensures var n := |hits| - 1;
      && (Found(hits[..n], c) ==> Found(hits, c) && Rank(hits, c) == Rank(hits[..n], c) < n)
      && (!Found(hits[..n], c) && hits[n].chunk == c ==> Found(hits, c) && Rank(hits, c) == n)
  {
    var n := |hits| - 1;
    RankPrefix(hits, n, c);
    assert hits[..n + 1] == hits;
    hide Rank;
  }

  lemma {:induction false} KnownKept(known: seq<string>, hits: seq<Hit>)
    requires Distinct(known)
    ensures var r := Appear(known, hits); |known| <= |r| && forall i | 0 <= i < |r| ::
      if i < |known| then r[i] == known[i] else r[i] !in known && Found(hits, r[i])
  {
    hide Found;
    if hits != [] {
      var n := |hits| - 1;
      KnownKept(known, hits[..n]);
      assert hits[..n + 1] == hits;
      forall c ensures Found(hits[..n], c) ==> Found(hits, c) { RankGrows(hits, c); }
      RankGrows(hits, hits[n].chunk);
    }
  }

  /** c appears before d when the second list is read after the first. */
  ghost predicate Earlier(a: seq<Hit>, b: seq<Hit>, c: string, d: string) {
    || (exists r: nat :: FirstAt(a, c, r) && Absent(a, d))
    || (exists r: nat, s: nat :: FirstAt(a, c, r) && FirstAt(a, d, s) && r < s)
    || (Absent(a, c) && Absent(a, d) && exists r: nat, s: nat :: FirstAt(b, c, r) && FirstAt(b, d, s) && r < s)
  }

  lemma PlacesEarlier(a: seq<Hit>, b: seq<Hit>, i: nat, j: nat)
    requires i < j < |Appear(Appear([], a), b)|
    ensures var order := Appear(Appear([], a), b); Earlier(a, b, order[i], order[j])
  {
    var known := Appear([], a);
    var order := Appear(known, b);
    var c, d := order[i], order[j];
    AppearPlaces(known, b, i, j);
    if j < |known| { AppearPlaces([], a, i, j); }
    RankMeans(a, c);
    RankMeans(a, d);
    RankMeans(b, c);
    RankMeans(b, d);
    KnownKept(known, b);
    hide Appear, Rank, Absent;
    if i < |known| {
      assert known[i] in known && FirstAt(a, c, Rank(a, c));
      if j < |known| { assert known[j] in known && FirstAt(a, d, Rank(a, d)); }
    } else {
      assert FirstAt(b, c, Rank(b, c)) && FirstAt(b, d, Rank(b, d));
    }
  }

  /** The merge, in terms of its lists: an entry for every chunk of either, each as its first places give it, by falling
      score, and those of equal score in the order in which they appear. */
  ghost predicate Merges(a: seq<Hit>, b: seq<Hit>, k: nat, out: seq<Fused>)
    requires k >= 1
  {
    && (forall h | h in a || h in b :: exists i :: 0 <= i < |out| && out[i].hit.chunk == h.chunk)
    && (forall i | 0 <= i < |out| :: IsEntry(a, b, k, out[i]))
    && (forall i, j | 0 <= i < j < |out| ::
          || out[i].score > out[j].score
          || (out[i].score == out[j].score && Earlier(a, b, out[i].hit.chunk, out[j].hit.chunk)))
  }

  lemma FusesMerges(a: seq<Hit>, b: seq<Hit>, k: nat, out: seq<Fused>)
    requires k >= 1 && Fuses(a, b, k, out)
    ensures Merges(a, b, k, out)
  {
    var order := Appear(Appear([], a), b);
    hide Appear, FusedOf, Found, IsEntry, Earlier;
    forall c | Found(a, c) || Found(b, c) ensures FusedOf(a, b, k, c).hit.chunk == c && IsEntry(a, b, k, FusedOf(a, b, k, c)) {
      EntryMeans(a, b, k, c);
    }
    forall h | h in a || h in b ensures exists i :: 0 <= i < |out| && out[i].hit.chunk == h.chunk {
      HitFound(a, b, h);
      var i :| 0 <= i < |out| && out[i] == FusedOf(a, b, k, h.chunk);
    }
    forall i, j | 0 <= i < j < |out|
      ensures out[i].score > out[j].score || (out[i].score == out[j].score && Earlier(a, b, out[i].hit.chunk, out[j].hit.chunk))
    {
      assert Before(order, out[i], out[j]);
      if out[i].score == out[j].score { BeforeEarlier(a, b, out[i].hit.chunk, out[j].hit.chunk); }
    }
  }

  lemma HitFound(a: seq<Hit>, b: seq<Hit>, h: Hit)
    requires h in a || h in b
    ensures Found(a, h.chunk) || Found(b, h.chunk)
  {
    RankMeans(a, h.chunk);
    RankMeans(b, h.chunk);
  }

  lemma BeforeEarlier(a: seq<Hit>, b: seq<Hit>, c: string, d: string)
    requires (Found(a, c) || Found(b, c)) && (Found(a, d) || Found(b, d))
    requires Place(Appear(Appear([], a), b), c) < Place(Appear(Appear([], a), b), d)
    ensures Earlier(a, b, c, d)
  {
    var order := Appear(Appear([], a), b);
    assert c in order && d in order;
    hide Appear, Earlier, Found;
    PlacesEarlier(a, b, Place(order, c), Place(order, d));
  }

  // ---------- hits of both paths win ----------

  lemma Reciprocal(x: real, y: real)
    requires 0.0 < x < y
    ensures 1.0 / x > 1.0 / y
  {
  }

  lemma Share(hits: seq<Hit>, k: nat, chunk: string)
    requires k >= 1 && |hits| <= k && forall h :: h in hits ==> h.weight == 1.0
    ensures Part(hits, k, chunk) <= 1.0 / k as real
    ensures Found(hits, chunk) ==> Part(hits, k, chunk) > 1.0 / (2 * k) as real
  {
    var r := Rank(hits, chunk);
    if r < |hits| {
      assert hits[r] in hits;
      Reciprocal((k + r) as real, (2 * k) as real);
      if r > 0 { Reciprocal(k as real, (k + r) as real); }
    }
  }

  lemma Halves(k: nat)
    requires k >= 1
    ensures 1.0 / (2 * k) as real + 1.0 / (2 * k) as real == 1.0 / k as real
  {
  }

  lemma RankedScores(order: seq<string>, out: seq<Fused>, i: nat, j: nat)
    requires Ranked(order, out) && i < |out| && j < |out|
    ensures i <= j ==> out[i].score >= out[j].score
  {
    if i < j { assert Before(order, out[i], out[j]); }
  }

  /** With unit weights and lists no longer than k, every hit found by both paths precedes every hit found by
      one only. */
  lemma BothPathsWin(a: seq<Hit>, b: seq<Hit>, k: nat, out: seq<Fused>, i: nat, j: nat)
    requires k >= 1 && Fuses(a, b, k, out) && |a| <= k && |b| <= k
    requires forall h :: h in a || h in b ==> h.weight == 1.0
    requires i < |out| && j < |out| && out[i].path == "ab" && out[j].path != "ab"
    ensures i < j && out[i].score > out[j].score
  {
    var c, d := out[i].hit.chunk, out[j].hit.chunk;
    Share(a, k, c);
    Share(b, k, c);
    Share(a, k, d);
    Share(b, k, d);
    Halves(k);
    hide Part, Rank;
    assert out[i].score > out[j].score;
    RankedScores(Appear(Appear([], a), b), out, j, i);
  }
}
