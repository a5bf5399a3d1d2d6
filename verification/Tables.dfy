/** Small table utilities: dict(zip(keys, values)), max(doc_version), and listings of a set of ids. */
module Tables {
  import opened Schema

  /** dict(zip(keys, vals)): a later binding of the same key wins. */
  function Bind<K(!new), V(!new)>(keys: seq<K>, vals: seq<V>): (r: map<K, V>)
    requires |keys| == |vals|
    ensures forall k :: k in r <==> k in keys
    ensures forall k | k in r :: exists i :: 0 <= i < |keys| && keys[i] == k && vals[i] == r[k]
  {
    if keys == [] then map[]
    else
      var n := |keys| - 1;
      var r := Bind(keys[..n], vals[..n])[keys[n] := vals[n]];
      assert keys == keys[..n] + [keys[n]];
      r
  }

  /** A key is bound to what its last occurrence is paired with. */
  lemma {:induction false} BindLast<K(!new), V(!new)>(keys: seq<K>, vals: seq<V>, i: nat)
    requires |keys| == |vals| && i < |keys| && forall j | i < j < |keys| :: keys[j] != keys[i]
    ensures keys[i] in Bind(keys, vals) && Bind(keys, vals)[keys[i]] == vals[i]
  {
    var n := |keys| - 1;
    BindSnoc(keys, vals);
    hide Bind;
    if i < n {
      assert keys[..n][i] == keys[i] && vals[..n][i] == vals[i];
      BindLast(keys[..n], vals[..n], i);
    }
  }

  lemma BindSnoc<K(!new), V(!new)>(keys: seq<K>, vals: seq<V>)
    requires |keys| == |vals| && keys != []
    ensures var n := |keys| - 1; Bind(keys, vals) == Bind(keys[..n], vals[..n])[keys[n] := vals[n]]
  {
  }

  // ---------- filters ----------

  /** r holds the elements of s that are to be kept, in order and as often; `places` is where they stand in s. */
  ghost predicate Filters<T(!new)>(s: seq<T>, keep: T -> bool, r: seq<T>, places: seq<nat>) {
    && |places| == |r| && Increasing(places)
    && (forall i | 0 <= i < |r| :: places[i] < |s| && s[places[i]] == r[i])
    && (forall p: nat | p < |s| :: p in places <==> keep(s[p]))
  }

  lemma FiltersNext<T(!new)>(s: seq<T>, keep: T -> bool, r: seq<T>, places: seq<nat>)
    requires s != [] && Filters(s[..|s| - 1], keep, r, places)
    ensures var n := |s| - 1; if keep(s[n]) then Filters(s, keep, r + [s[n]], places + [n]) else Filters(s, keep, r, places)
  {
    var n := |s| - 1;
    forall p: nat | p < n ensures s[..n][p] == s[p] { }
    forall i | 0 <= i < |places| ensures places[i] < n && s[..n][places[i]] == s[places[i]] { }
    assert n !in places;
  }

  /** There is only one such list. */
  lemma FiltersUnique<T(!new)>(s: seq<T>, keep: T -> bool, r: seq<T>, places: seq<nat>, r': seq<T>, places': seq<nat>)
    requires Filters(s, keep, r, places) && Filters(s, keep, r', places')
    ensures r == r'
  {
    forall p ensures p in places <==> p in places' {
      if p in places { var i :| 0 <= i < |places| && places[i] == p; }
      if p in places' { var i :| 0 <= i < |places'| && places'[i] == p; }
    }
    SameIncreasing(places, places');
  }

  ghost predicate Increasing(a: seq<nat>) {
    forall i, j | 0 <= i < j < |a| :: a[i] < a[j]
  }

  lemma LastGreatest(a: seq<nat>)
    requires Increasing(a) && a != []
    ensures var m := |a| - 1; a[m] in a && (forall p | p in a :: p <= a[m]) && forall p :: p in a[..m] <==> p in a && p != a[m]
  {
    var m := |a| - 1;
    assert a == a[..m] + [a[m]];
  }

  lemma SomeElement<T>(s: seq<T>)
    ensures s != [] ==> exists x :: x in s
  {
    if s != [] { assert s[0] in s; }
  }

  lemma {:induction false} SameIncreasing(a: seq<nat>, b: seq<nat>)
    requires Increasing(a) && Increasing(b) && forall p :: p in a <==> p in b
    ensures a == b
  {
    SomeElement(a);
    SomeElement(b);
    if a != [] {
      var m, n := |a| - 1, |b| - 1;
      LastGreatest(a);
      LastGreatest(b);
      assert Increasing(a[..m]) && Increasing(b[..n]);
      hide Increasing;
      SameIncreasing(a[..m], b[..n]);
      assert a == a[..m] + [a[m]] && b == b[..n] + [b[n]];
    }
  }

  function Members<T>(s: seq<T>): set<T> {
    set x | x in s
  }

  ghost predicate Distinct<T>(s: seq<T>) {
    forall i, j | 0 <= i < j < |s| :: s[i] != s[j]
  }

  /** executemany of INSERTs with new, pairwise different keys. */
  lemma InsertAll<K(!new), V(!new)>(table: map<K, V>, keys: seq<K>, vals: seq<V>)
    requires |keys| == |vals| && Distinct(keys) && forall k :: k in keys ==> k !in table
    ensures var r := table + Bind(keys, vals);
      && (forall i | 0 <= i < |keys| :: keys[i] in r && r[keys[i]] == vals[i])
      && (forall k :: k in r <==> k in table || k in keys)
      && (forall k | k in table :: r[k] == table[k])
  {
    forall i | 0 <= i < |keys| ensures keys[i] in Bind(keys, vals) && Bind(keys, vals)[keys[i]] == vals[i] {
      var r := Bind(keys, vals);
      var j :| 0 <= j < |keys| && keys[j] == keys[i] && vals[j] == r[keys[i]];
      assert i == j;
    }
  }

  lemma InsertNext<K(!new), V(!new)>(table: map<K, V>, keys: seq<K>, vals: seq<V>, i: nat)
    requires i < |keys| == |vals|
    ensures (table + Bind(keys[..i], vals[..i]))[keys[i] := vals[i]] == table + Bind(keys[..i + 1], vals[..i + 1])
  {
    assert keys[..i + 1][..i] == keys[..i] && vals[..i + 1][..i] == vals[..i];
  }

  /** coalesce(max(doc_version), 0) */
  function Latest(versions: seq<nat>): (m: nat)
    ensures forall v :: v in versions ==> v <= m
    ensures if versions == [] then m == 0 else m in versions
  {
    if versions == [] then 0
    else
      var m := Latest(versions[1..]);
      assert versions == [versions[0]] + versions[1..];
      if versions[0] >= m then versions[0] else m
  }

  /** s lists the set without repetition, in some order: the rows of a SELECT without ORDER BY. */
  ghost predicate Lists<T(!new)>(s: seq<T>, set_: set<T>) {
    Distinct(s) && forall x :: x in s <==> x in set_
  }

  /** The places of the elements to be kept. */
  ghost function Kept<T(!new)>(s: seq<T>, keep: T -> bool): set<nat> {
    set p | 0 <= p < |s| && keep(s[p])
  }

  lemma FiltersCount<T(!new)>(s: seq<T>, keep: T -> bool, r: seq<T>, places: seq<nat>)
    requires Filters(s, keep, r, places)
    ensures |r| == |Kept(s, keep)|
  {
    forall p | p in places ensures p < |s| { var i :| 0 <= i < |places| && places[i] == p; }
    assert Lists(places, Kept(s, keep));
    ListsCount(places, Kept(s, keep));
  }

  lemma {:induction false} ListsCount<T(!new)>(s: seq<T>, set_: set<T>)
    requires Lists(s, set_)
    ensures |s| == |set_|
  {
    if s == [] {
      assert set_ == {};
    } else {
      var n := |s| - 1;
      assert s[n] in set_;
      forall x ensures x in s[..n] <==> x in set_ - {s[n]} {
        if x in s[..n] { var i :| 0 <= i < n && s[i] == x; assert x in s; }
      }
      ListsCount(s[..n], set_ - {s[n]});
    }
  }
}
