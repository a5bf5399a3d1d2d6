/** 64-bit simhash fingerprints (app/retrieval/simhash.py): character bigrams, a signed counter per bit,
    the sign as fingerprint, Hamming distance, and the signed, unsigned and 16-hex encodings. */
module Simhash {
  const TWO63: int := 0x8000_0000_0000_0000
  const TWO64: int := 0x1_0000_0000_0000_0000

  type Word64 = x: nat | x < TWO64

  /** "".join(str(text).lower().split()): some fixed normalisation of a text. */
  const Normalise: string -> string

  /** blake2b truncated to 8 bytes: some fixed function into 64-bit words. */
  const Hash64: string -> Word64

  // ---------- bits of naturals ----------

  function Pow(b: nat, n: nat): nat {
    if n == 0 then 1 else b * Pow(b, n - 1)
  }

  /** (x >> i) & 1 */
  function Bit(x: nat, i: nat): bool {
    if i == 0 then x % 2 == 1 else Bit(x / 2, i - 1)
  }

  /** x | (1 << i) */
  function Or1(x: nat, i: nat): nat {
    if Bit(x, i) then x else x + Pow(2, i)
  }

  /** bin(a ^ b).count("1") */
  function Hamming(a: nat, b: nat): nat
    decreases a + b
  {
    if a == 0 && b == 0 then 0
    else (if a % 2 != b % 2 then 1 else 0) + Hamming(a / 2, b / 2)
  }

  lemma {:induction false} Or1Bits(x: nat, i: nat, j: nat)
    ensures Bit(Or1(x, i), j) == (j == i || Bit(x, j))
  {
    if i > 0 {
      assert (x + Pow(2, i)) / 2 == x / 2 + Pow(2, i - 1) && (x + Pow(2, i)) % 2 == x % 2;
      if j > 0 {
        Or1Bits(x / 2, i - 1, j - 1);
      }
    } else if j > 0 {
      assert !Bit(x, 0) ==> (x + 1) / 2 == x / 2;
    }
  }

  lemma {:induction false} Or1Bound(x: nat, i: nat, n: nat)
    requires x < Pow(2, n) && i < n
    ensures Or1(x, i) < Pow(2, n)
  {
    Doubled(n - 1);
    if i > 0 {
      Doubled(i - 1);
      assert Bit(x, i) == Bit(x / 2, i - 1);
      hide Pow, Bit;
      HalfBound(x, Pow(2, n - 1));
      Or1Bound(x / 2, i - 1, n - 1);
      DoubleBound(x, Pow(2, i - 1), Pow(2, n - 1), Bit(x, i));
    } else {
      assert Bit(x, 0) == (x % 2 == 1) && Pow(2, 0) == 1;
      hide Pow, Bit;
    }
  }

  lemma Doubled(n: nat)
    ensures Pow(2, n + 1) == 2 * Pow(2, n)
  {
  }

  lemma HalfBound(x: nat, q: nat)
    requires x < 2 * q
    ensures x / 2 < q
  {
  }

  lemma DoubleBound(x: nat, p: nat, q: nat, isSet: bool)
    requires (if isSet then x / 2 else x / 2 + p) < q
    ensures (if isSet then x else x + 2 * p) < 2 * q
  {
  }

  lemma {:induction false} SameBits(x: nat, y: nat, n: nat)
    requires x < Pow(2, n) && y < Pow(2, n)
    requires forall i | 0 <= i < n :: Bit(x, i) == Bit(y, i)
    ensures x == y
  {
    if n > 0 {
      forall i | 0 <= i < n - 1 ensures Bit(x / 2, i) == Bit(y / 2, i) {
        assert Bit(x, i + 1) == Bit(y, i + 1);
      }
      SameBits(x / 2, y / 2, n - 1);
      assert Bit(x, 0) == Bit(y, 0);
    }
  }

  /** Bit i of a number, by division. */
  lemma {:induction false} BitMeans(x: nat, i: nat)
    ensures Pow(2, i) > 0 && (Bit(x, i) <==> x / Pow(2, i) % 2 == 1)
  {
    if i > 0 {
      BitMeans(x / 2, i - 1);
      Halved(x, Pow(2, i - 1));
    }
  }

  lemma Halved(x: nat, p: nat)
    requires p > 0
    ensures x / (2 * p) == x / 2 / p
  {
    var q := x / 2 / p;
    var r := x / 2 % p;
    assert x / 2 == q * p + r;
    assert x == q * (2 * p) + (2 * r + x % 2);
    Quotient(x, q, 2 * p, 2 * r + x % 2);
  }

  lemma Quotient(x: nat, q: nat, d: nat, r: nat)
    requires x == q * d + r && r < d
    ensures x / d == q
  {
    if x / d < q {
      assert (x / d + 1) * d <= q * d by { MulMono(x / d + 1, q, d); }
    } else if x / d > q {
      assert (q + 1) * d <= x / d * d by { MulMono(q + 1, x / d, d); }
    }
  }

  lemma MulMono(a: nat, b: nat, d: nat)
    requires a <= b
    ensures a * d <= b * d
  {
  }

  /** The positions at which two words differ, when bit 0 is at lo. */
  predicate DiffersAt(a: nat, b: nat, lo: nat, i: nat) {
    lo <= i && Bit(a, i - lo) != Bit(b, i - lo)
  }

  function Differing(a: nat, b: nat, lo: nat, n: nat): set<nat> {
    set i | lo <= i < lo + n && DiffersAt(a, b, lo, i)
  }

  lemma {:induction false} HammingFrom(a: nat, b: nat, lo: nat, n: nat)
    requires a < Pow(2, n) && b < Pow(2, n)
    ensures Hamming(a, b) == |Differing(a, b, lo, n)|
    decreases n
  {
    if n == 0 {
      assert Differing(a, b, lo, n) == {};
    } else {
      HammingFrom(a / 2, b / 2, lo + 1, n - 1);
      var rest := Differing(a / 2, b / 2, lo + 1, n - 1);
      forall i | lo < i ensures DiffersAt(a, b, lo, i) <==> DiffersAt(a / 2, b / 2, lo + 1, i) { assert i - lo - 1 == i - (lo + 1); }
      assert DiffersAt(a, b, lo, lo) <==> a % 2 != b % 2;
      hide DiffersAt;
      assert Differing(a, b, lo, n) == if a % 2 != b % 2 then rest + {lo} else rest;
    }
  }

  /** The bits below n in which two words differ. */
  function DifferentBits(a: nat, b: nat, n: nat): set<nat> {
    set i | 0 <= i < n && Bit(a, i) != Bit(b, i)
  }

  /** Hamming distance is the number of differing bits. */
  lemma HammingMeans(a: nat, b: nat, n: nat)
    requires a < Pow(2, n) && b < Pow(2, n)
    ensures Hamming(a, b) == |DifferentBits(a, b, n)|
  {
    HammingFrom(a, b, 0, n);
    hide Bit;
    assert forall i: nat :: DiffersAt(a, b, 0, i) <==> Bit(a, i) != Bit(b, i);
    assert Differing(a, b, 0, n) == DifferentBits(a, b, n);
  }

  // ---------- Hamming distance is a metric on words, bounded by the width ----------

  lemma {:induction false} HammingMetric(a: nat, b: nat, c: nat)
    ensures Hamming(a, b) == Hamming(b, a)
    ensures Hamming(a, b) == 0 <==> a == b
    ensures Hamming(a, c) <= Hamming(a, b) + Hamming(b, c)
    decreases a + b + c
  {
    if a + b + c > 0 {
      HammingMetric(a / 2, b / 2, c / 2);
    }
  }

  lemma {:induction false} HammingBound(a: nat, b: nat, n: nat)
    requires a < Pow(2, n) && b < Pow(2, n)
    ensures Hamming(a, b) <= n
  {
    if n > 0 && a + b > 0 {
      HammingBound(a / 2, b / 2, n - 1);
    }
  }

  lemma {:induction false} PowSum(b: nat, m: nat, n: nat)
    ensures Pow(b, m + n) == Pow(b, m) * Pow(b, n)
  {
    if m > 0 {
      PowSum(b, m - 1, n);
      MulAssoc(b, Pow(b, m - 1), Pow(b, n));
    }
  }

  lemma MulAssoc(a: int, b: int, c: int)
    ensures a * (b * c) == (a * b) * c
  {
  }

  lemma Pow64()
    ensures Pow(2, 64) == TWO64 && Pow(16, 16) == TWO64
  {
    PowSum(2, 8, 8);
    PowSum(2, 16, 16);
    PowSum(2, 32, 32);
    PowSum(16, 4, 4);
    PowSum(16, 8, 8);
    assert Pow(2, 8) == 256 && Pow(16, 4) == 0x1_0000;
  }

  // ---------- fingerprint ----------

  function FeaturesOf(s: string): seq<string> {
    if |s| < 2 then (if s == "" then [] else [s])
    else seq(|s| - 1, i requires 0 <= i < |s| - 1 => s[i..i + 2])
  }

  function Features(text: string): seq<string> {
    FeaturesOf(Normalise(text))
  }

  function Sign(feat: string, i: nat): int {
    if Bit(Hash64(feat), i) then 1 else -1
  }

  /** v[i] after the feature loop. */
  function Counter(feats: seq<string>, i: nat): int {
    if feats == [] then 0 else Counter(feats[..|feats| - 1], i) + Sign(feats[|feats| - 1], i)
  }

  /** fp after the first n rounds of the sign loop. */
  function Signs(feats: seq<string>, n: nat): nat {
    if n == 0 then 0
    else
      var fp := Signs(feats, n - 1);
      if Counter(feats, n - 1) > 0 then Or1(fp, n - 1) else fp
  }

  function Fingerprint(feats: seq<string>): nat {
    Signs(feats, 64)
  }

  function Simhash(text: string): nat {
    Fingerprint(Features(text))
  }

  // ---------- what the fingerprint counts ----------

  /** Number of bigrams of a normalised text; a single character counts as one. */
  function GramCount(s: string): nat {
    if |s| < 2 then |s| else |s| - 1
  }

  /** The two characters at i, or the only one. */
  function Gram(s: string, i: nat): string
    requires i < GramCount(s)
  {
    if |s| < 2 then [s[i]] else [s[i], s[i + 1]]
  }

  /** f stands somewhere in the text: two adjacent characters of it, or its only one. */
  predicate Occurs(f: string, s: string) {
    if |s| < 2 then |f| == 1 && f == s
    else |f| == 2 && exists i | 0 <= i < |s| - 1 :: s[i] == f[0] && s[i + 1] == f[1]
  }

  /** The features of a text are its bigrams, in order and with repetitions. */
  lemma FeaturesAre(s: string)
    ensures |FeaturesOf(s)| == GramCount(s) && forall i | 0 <= i < GramCount(s) :: FeaturesOf(s)[i] == Gram(s, i)
  {
  }

  /** A string is a feature if and only if it occurs in the text. */
  lemma FeatureIff(s: string, f: string)
    ensures f in FeaturesOf(s) <==> Occurs(f, s)
  {
    FeaturesAre(s);
    hide FeaturesOf;
    if f in FeaturesOf(s) {
      var i :| 0 <= i < |FeaturesOf(s)| && FeaturesOf(s)[i] == f;
      assert f == Gram(s, i);
    }
    if Occurs(f, s) {
      var i :| 0 <= i < GramCount(s) && (if |s| < 2 then i == 0 else s[i] == f[0] && s[i + 1] == f[1]);
      assert f == Gram(s, i) == FeaturesOf(s)[i];
    }
  }

  /** The places whose bigram's hash has bit i, and those whose has not. */
  function Pro(s: string, i: nat): set<nat> {
    set j | 0 <= j < GramCount(s) && Bit(Hash64(Gram(s, j)), i)
  }

  function Con(s: string, i: nat): set<nat> {
    set j | 0 <= j < GramCount(s) && !Bit(Hash64(Gram(s, j)), i)
  }

  function Votes(feats: seq<string>, i: nat, yes: bool): set<nat> {
    set j | 0 <= j < |feats| && Bit(Hash64(feats[j]), i) == yes
  }

  lemma {:induction false} CounterVotes(feats: seq<string>, i: nat)
    ensures Counter(feats, i) == |Votes(feats, i, true)| - |Votes(feats, i, false)|
  {
    hide Bit;
    if feats == [] {
      assert Votes(feats, i, true) == {} == Votes(feats, i, false);
    } else {
      var n := |feats| - 1;
      CounterVotes(feats[..n], i);
      VotesSnoc(feats, i, true);
      VotesSnoc(feats, i, false);
    }
  }

  lemma VotesSnoc(feats: seq<string>, i: nat, yes: bool)
    requires feats != []
    ensures var n := |feats| - 1;
      |Votes(feats, i, yes)| == |Votes(feats[..n], i, yes)| + if Bit(Hash64(feats[n]), i) == yes then 1 else 0
  {
    hide Bit;
    var n := |feats| - 1;
    var front := Votes(feats[..n], i, yes);
    assert Votes(feats, i, yes) == if Bit(Hash64(feats[n]), i) == yes then front + {n} else front;
  }

  /** Counter i is the number of bigrams whose hash has bit i minus the number of those whose has not. */
  lemma CounterMeans(s: string, i: nat)
    ensures Counter(FeaturesOf(s), i) == |Pro(s, i)| - |Con(s, i)|
  {
    FeaturesAre(s);
    hide FeaturesOf, Gram, Counter, Bit;
    var feats := FeaturesOf(s);
    CounterVotes(feats, i);
    assert Pro(s, i) == Votes(feats, i, true) && Con(s, i) == Votes(feats, i, false);
  }

  /** A 64-bit word whose bit i is set iff more bigrams of the normalised text have bit i in their hash than not. */
  ghost predicate Majority(text: string, fp: nat) {
    fp < TWO64 && forall i | 0 <= i < 64 :: Bit(fp, i) <==> |Pro(Normalise(text), i)| > |Con(Normalise(text), i)|
  }

  /** That determines the fingerprint. */
  lemma SimhashIff(text: string, fp: nat)
    ensures Majority(text, fp) <==> fp == Simhash(text)
  {
    var feats := Features(text);
    Pow64();
    SignsBound(feats, 64, 64);
    hide FeaturesOf, Counter, Bit, Pow, Signs, Pro, Con;
    forall i | 0 <= i < 64 ensures Bit(Simhash(text), i) <==> |Pro(Normalise(text), i)| > |Con(Normalise(text), i)| {
      SignsBits(feats, 64, i);
      CounterMeans(Normalise(text), i);
    }
    if Majority(text, fp) { SameBits(fp, Simhash(text), 64); }
  }

  method ComputeSimhash(text: string) returns (fp: nat)
    ensures fp == Simhash(text) && Majority(text, fp)
  {
    SimhashIff(text, Simhash(text));
    hide Majority, FeaturesOf, Counter, Signs, Sign, Bit, Or1;
    var v := new int[64](_ => 0);
    var feats := Features(text);
    NoSigns(feats);
    for n := 0 to |feats|
      invariant forall i | 0 <= i < 64 :: v[i] == Counter(feats[..n], i)
    {
      var h := Hash64(feats[n]);
      assert forall i: nat :: Sign(feats[n], i) == if Bit(h, i) then 1 else -1 by { SignMeans(feats[n]); }
      for i := 0 to 64
        invariant forall j | 0 <= j < i :: v[j] == Counter(feats[..n], j) + Sign(feats[n], j)
        invariant forall j | i <= j < 64 :: v[j] == Counter(feats[..n], j)
      {
        v[i] := v[i] + if Bit(h, i) then 1 else -1;
      }
      forall i | 0 <= i < 64 ensures Counter(feats[..n + 1], i) == Counter(feats[..n], i) + Sign(feats[n], i) { CounterNext(feats, n, i); }
    }
    assert feats[..|feats|] == feats;
    fp := 0;
    for i := 0 to 64
      invariant fp == Signs(feats, i) && forall j | 0 <= j < 64 :: v[j] == Counter(feats, j)
    {
      SignsNext(feats, i);
      if v[i] > 0 {
        fp := Or1(fp, i);
      }
    }
  }

  lemma SignMeans(feat: string)
    ensures forall i: nat :: Sign(feat, i) == if Bit(Hash64(feat), i) then 1 else -1
  {
    hide Bit;
  }

  lemma CounterNext(feats: seq<string>, n: nat, i: nat)
    requires n < |feats|
    ensures Counter(feats[..n + 1], i) == Counter(feats[..n], i) + Sign(feats[n], i)
  {
    hide Sign;
    assert feats[..n + 1][..n] == feats[..n];
  }

  lemma NoSigns(feats: seq<string>)
    ensures Signs(feats, 0) == 0 && forall i: nat :: Counter(feats[..0], i) == 0
  {
  }

  lemma SignsNext(feats: seq<string>, i: nat)
    ensures Signs(feats, i + 1) == if Counter(feats, i) > 0 then Or1(Signs(feats, i), i) else Signs(feats, i)
  {
    hide Counter, Or1;
  }

  /** Bit i of the fingerprint is the sign of counter i. */
  lemma {:induction false} SignsBits(feats: seq<string>, n: nat, i: nat)
    ensures Bit(Signs(feats, n), i) == (i < n && Counter(feats, i) > 0)
  {
    if n == 0 {
      ZeroBits(i);
    } else {
      SignsBits(feats, n - 1, i);
      Or1Bits(Signs(feats, n - 1), n - 1, i);
    }
  }

  lemma ZeroBits(i: nat)
    ensures !Bit(0, i)
  {
    if i > 0 { ZeroBits(i - 1); }
  }

  lemma {:induction false} SignsBound(feats: seq<string>, n: nat, m: nat)
    requires n <= m
    ensures Signs(feats, n) < Pow(2, m)
  {
    if n == 0 {
      PowPositive(m);
    } else {
      SignsBound(feats, n - 1, m);
      Or1Bound(Signs(feats, n - 1), n - 1, m);
    }
  }

  lemma PowPositive(m: nat)
    ensures Pow(2, m) > 0
  {
    if m > 0 { PowPositive(m - 1); }
  }

  // ---------- stability ----------

  /** Number of bigrams added plus number removed. */
  ghost function Edits(a: seq<string>, b: seq<string>): nat {
    |multiset(a) - multiset(b)| + |multiset(b) - multiset(a)|
  }

  function Abs(x: int): nat {
    if x < 0 then -x else x
  }

  lemma {:induction false} CounterRemove(feats: seq<string>, j: nat, i: nat)
    requires j < |feats|
    ensures Counter(feats, i) == Counter(feats[..j] + feats[j + 1..], i) + Sign(feats[j], i)
  {
    var n := |feats| - 1;
    if j == n {
      assert feats[..j] + feats[j + 1..] == feats[..n];
    } else {
      CounterRemove(feats[..n], j, i);
      var rest := feats[..j] + feats[j + 1..];
      assert rest[..n - 1] == feats[..n][..j] + feats[..n][j + 1..] && rest[n - 1] == feats[n];
    }
  }

  lemma {:induction false} CounterSize(feats: seq<string>, i: nat)
    ensures Abs(Counter(feats, i)) <= |feats|
  {
    if feats != [] { CounterSize(feats[..|feats| - 1], i); }
  }

  /** Dropping an element that both sides have. */
  lemma EditsDropBoth(a: seq<string>, b: seq<string>, a': seq<string>, b': seq<string>, x: string)
    requires multiset(a) == multiset(a') + multiset{x} && multiset(b) == multiset(b') + multiset{x}
    ensures Edits(a, b) == Edits(a', b')
  {
    assert multiset(a) - multiset(b) == multiset(a') - multiset(b');
    assert multiset(b) - multiset(a) == multiset(b') - multiset(a');
  }

  /** Dropping an element that only the left side has. */
  lemma EditsDropLeft(a: seq<string>, b: seq<string>)
    requires a != [] && a[|a| - 1] !in b
    ensures Edits(a, b) == Edits(a[..|a| - 1], b) + 1
  {
    var a', x := a[..|a| - 1], a[|a| - 1];
    assert a == a' + [x];
    assert multiset(a) == multiset(a') + multiset{x};
    assert multiset(a) - multiset(b) == (multiset(a') - multiset(b)) + multiset{x};
    assert multiset(b) - multiset(a) == multiset(b) - multiset(a');
  }

  lemma Pull(b: seq<string>, x: string, i: nat) returns (b': seq<string>)
    requires x in b
    ensures multiset(b) == multiset(b') + multiset{x}
    ensures Counter(b, i) == Counter(b', i) + Sign(x, i)
  {
    var j :| 0 <= j < |b| && b[j] == x;
    b' := b[..j] + b[j + 1..];
    assert b == b[..j] + [x] + b[j + 1..];
    CounterRemove(b, j, i);
  }

  /** Dropping a bigram that both sides have changes neither the edits nor the counter difference. */
  lemma DropCommon(a: seq<string>, b: seq<string>, i: nat) returns (b': seq<string>)
    requires a != [] && a[|a| - 1] in b
    ensures Edits(a, b) == Edits(a[..|a| - 1], b')
    ensures Counter(a, i) - Counter(b, i) == Counter(a[..|a| - 1], i) - Counter(b', i)
  {
    var n := |a| - 1;
    b' := Pull(b, a[n], i);
    assert a == a[..n] + [a[n]];
    EditsDropBoth(a, b, a[..n], b', a[n]);
  }

  lemma {:induction false} CounterShift(a: seq<string>, b: seq<string>, i: nat)
    ensures Abs(Counter(a, i) - Counter(b, i)) <= Edits(a, b)
    decreases |a|
  {
    if a == [] {
      CounterSize(b, i);
      assert multiset(b) - multiset(a) == multiset(b);
    } else if a[|a| - 1] in b {
      var b' := DropCommon(a, b, i);
      CounterShift(a[..|a| - 1], b', i);
    } else {
      CounterShift(a[..|a| - 1], b, i);
      EditsDropLeft(a, b);
    }
  }

  /** Number of bits lo..lo+n-1 whose counter is at most d away from zero. */
  function WeakBits(feats: seq<string>, d: nat, lo: nat, n: nat): nat
    decreases n
  {
    if n == 0 then 0 else (if Abs(Counter(feats, lo)) <= d then 1 else 0) + WeakBits(feats, d, lo + 1, n - 1)
  }

  lemma {:induction false} FlipsAreWeak(x: nat, y: nat, feats: seq<string>, d: nat, lo: nat, n: nat)
    requires x < Pow(2, n) && y < Pow(2, n)
    requires forall i | 0 <= i < n && Bit(x, i) != Bit(y, i) :: Abs(Counter(feats, lo + i)) <= d
    ensures Hamming(x, y) <= WeakBits(feats, d, lo, n)
    decreases n
  {
    if n > 0 {
      forall i | 0 <= i < n - 1 && Bit(x / 2, i) != Bit(y / 2, i)
        ensures Abs(Counter(feats, lo + 1 + i)) <= d
      {
        assert Bit(x, i + 1) != Bit(y, i + 1);
        assert lo + (i + 1) == lo + 1 + i;
      }
      FlipsAreWeak(x / 2, y / 2, feats, d, lo + 1, n - 1);
      assert Bit(x, 0) != Bit(y, 0) ==> Abs(Counter(feats, lo + 0)) <= d;
    }
  }

  /** A bit flips only if its counter is within the number of edited bigrams of zero, so the fingerprints
      are at most as far apart as there are such bits; no edits, no distance. */
  lemma FingerprintStable(a: seq<string>, b: seq<string>)
    ensures forall i | 0 <= i < 64 && Bit(Fingerprint(a), i) != Bit(Fingerprint(b), i) :: Abs(Counter(a, i)) <= Edits(a, b)
    ensures Hamming(Fingerprint(a), Fingerprint(b)) <= WeakBits(a, Edits(a, b), 0, 64)
    ensures multiset(a) == multiset(b) ==> Fingerprint(a) == Fingerprint(b)
  {
    forall i | 0 <= i < 64
      ensures Bit(Fingerprint(a), i) != Bit(Fingerprint(b), i) ==> Abs(Counter(a, i)) <= Edits(a, b)
      ensures multiset(a) == multiset(b) ==> Bit(Fingerprint(a), i) == Bit(Fingerprint(b), i)
    {
      SignsBits(a, 64, i);
      SignsBits(b, 64, i);
      CounterShift(a, b, i);
    }
    SignsBound(a, 64, 64);
    SignsBound(b, 64, 64);
    assert forall i {:trigger Counter(a, 0 + i)} | 0 <= i < 64 && Bit(Fingerprint(a), i) != Bit(Fingerprint(b), i) :: Abs(Counter(a, 0 + i)) <= Edits(a, b);
    FlipsAreWeak(Fingerprint(a), Fingerprint(b), a, Edits(a, b), 0, 64);
    if multiset(a) == multiset(b) {
      SameBits(Fingerprint(a), Fingerprint(b), 64);
    }
  }

  lemma LocalChange(a: seq<string>, b: seq<string>, lo: nat, hi: nat)
    requires |a| == |b| && lo <= hi <= |a|
    requires a[..lo] == b[..lo] && a[hi..] == b[hi..]
    ensures Edits(a, b) <= 2 * (hi - lo)
  {
    assert a == a[..lo] + a[lo..hi] + a[hi..] && b == b[..lo] + b[lo..hi] + b[hi..];
    var common, x, y := multiset(a[..lo]) + multiset(a[hi..]), multiset(a[lo..hi]), multiset(b[lo..hi]);
    assert multiset(a) == common + x && multiset(b) == common + y;
    assert multiset(a) - multiset(b) == x - y && multiset(b) - multiset(a) == y - x;
    assert |x - y| <= |x| && |y - x| <= |y|;
  }

  /** Replacing one character of the normalised text edits at most two bigrams each way. */
  lemma OneCharacter(s: string, p: nat, c: char)
    requires p < |s|
    ensures Edits(FeaturesOf(s), FeaturesOf(s[p := c])) <= 4
  {
    var t := s[p := c];
    var a, b := FeaturesOf(s), FeaturesOf(t);
    if |s| < 2 {
      LocalChange(a, b, 0, 1);
    } else {
      var lo := if p == 0 then 0 else p - 1;
      var hi := if p + 1 <= |a| then p + 1 else |a|;
      assert forall i | 0 <= i < |a| && !(lo <= i < hi) :: a[i] == b[i];
      LocalChange(a, b, lo, hi);
    }
  }

  lemma OneCharacterStable(s: string, p: nat, c: char)
    requires p < |s|
    ensures var a, b := FeaturesOf(s), FeaturesOf(s[p := c]);
            && (forall i | 0 <= i < 64 && Bit(Fingerprint(a), i) != Bit(Fingerprint(b), i) :: Abs(Counter(a, i)) <= 4)
            && Hamming(Fingerprint(a), Fingerprint(b)) <= WeakBits(a, 4, 0, 64)
  {
    var a, b := FeaturesOf(s), FeaturesOf(s[p := c]);
    OneCharacter(s, p, c);
    FingerprintStable(a, b);
    WeakBitsMonotone(a, Edits(a, b), 4, 0, 64);
  }

  lemma {:induction false} WeakBitsMonotone(feats: seq<string>, d: nat, e: nat, lo: nat, n: nat)
    requires d <= e
    ensures WeakBits(feats, d, lo, n) <= WeakBits(feats, e, lo, n)
    decreases n
  {
    if n > 0 { WeakBitsMonotone(feats, d, e, lo + 1, n - 1); }
  }

  // ---------- encodings ----------

  /** Unsigned 64-bit to a signed BIGINT; v & MASK is the Euclidean remainder, also for negative v. */
  function ToSigned(v: int): (r: int)
    ensures -TWO63 <= r < TWO63
  {
    var u := v % TWO64;
    if u >= TWO63 then u - TWO64 else u
  }

  function ToUnsigned(v: int): int {
    if v < 0 then v + TWO64 else v
  }

  lemma SignedRoundTrip(v: int)
    ensures 0 <= v < TWO64 ==> ToUnsigned(ToSigned(v)) == v && -TWO63 <= ToSigned(v) < TWO63
    ensures -TWO63 <= v < TWO63 ==> ToSigned(ToUnsigned(v)) == v && 0 <= ToUnsigned(v) < TWO64
  {}

  /** The signed form is the same number modulo 2^64. */
  lemma SignedCongruent(v: int)
    ensures (ToSigned(v) - v) % TWO64 == 0
  {
    var u := v % TWO64;
    assert (u - v) % TWO64 == 0;
  }

  const DIGITS: string := "0123456789abcdef"

  /** format(x, "0{n}x") for x < 16^n. */
  function Hex(x: nat, n: nat): (r: string)
    ensures |r| == n && forall c :: c in r ==> c in DIGITS
  {
    if n == 0 then "" else Hex(x / 16, n - 1) + [DIGITS[x % 16]]
  }

  /** Digit i of the hex form, most significant first. */
  lemma {:induction false} HexDigits(x: nat, n: nat, i: nat)
    requires i < n
    ensures Pow(16, n - 1 - i) > 0 && Hex(x, n)[i] == DIGITS[x / Pow(16, n - 1 - i) % 16]
  {
    if i < n - 1 {
      HexDigits(x / 16, n - 1, i);
      HexDigitNext(x, n - 2 - i);
      assert Hex(x, n)[i] == Hex(x / 16, n - 1)[i];
    } else {
      assert Pow(16, 0) == 1 && Hex(x, n)[n - 1] == DIGITS[x % 16];
    }
    hide Pow, Hex;
  }

  lemma HexDigitNext(x: nat, j: nat)
    requires Pow(16, j) > 0
    ensures Pow(16, j + 1) > 0 && x / Pow(16, j + 1) == x / 16 / Pow(16, j)
  {
    assert Pow(16, j + 1) == 16 * Pow(16, j);
    hide Pow;
    Sixteenth(x, Pow(16, j));
  }

  lemma Sixteenth(x: nat, p: nat)
    requires p > 0
    ensures x / (16 * p) == x / 16 / p
  {
    var q := x / 16 / p;
    var r := x / 16 % p;
    assert x / 16 == q * p + r;
    assert x == q * (16 * p) + (16 * r + x % 16);
    Quotient(x, q, 16 * p, 16 * r + x % 16);
  }

  function DigitValue(c: char): (v: nat)
    requires c in DIGITS
    ensures v < 16 && DIGITS[v] == c
  {
    if '0' <= c <= '9' then (c - '0') as nat else (c - 'a') as nat + 10
  }

  /** int(s, 16) */
  function FromHex(s: string): nat
    requires forall c :: c in s ==> c in DIGITS
  {
    if s == "" then 0 else 16 * FromHex(s[..|s| - 1]) + DigitValue(s[|s| - 1])
  }

  function SimhashHex(text: string): string {
    Hex(Simhash(text), 16)
  }

  /** Distance between a stored hex fingerprint and a stored signed chunk fingerprint. */
  function HammingHex(hex: string, signed: int): nat
    requires forall c :: c in hex ==> c in DIGITS
    requires -TWO63 <= signed < TWO63
  {
    Hamming(FromHex(hex), ToUnsigned(signed))
  }

  lemma HexLast(s: string, d: nat)
    requires forall c :: c in s ==> c in DIGITS
    requires d < 16
    ensures FromHex(s + [DIGITS[d]]) == 16 * FromHex(s) + d
  {
    assert DigitValue(DIGITS[d]) == d;
    assert (s + [DIGITS[d]])[..|s|] == s;
  }

  lemma {:induction false} HexRoundTrip(x: nat, n: nat)
    requires x < Pow(16, n)
    ensures FromHex(Hex(x, n)) == x
  {
    if n > 0 {
      assert x / 16 < Pow(16, n - 1);
      HexRoundTrip(x / 16, n - 1);
      HexLast(Hex(x / 16, n - 1), x % 16);
    }
  }

  /** Across the two stored encodings of texts, the distance is the distance of the fingerprints. */
  lemma StoredDistance(t: string, u: string)
    ensures -TWO63 <= ToSigned(Simhash(u)) < TWO63
    ensures HammingHex(SimhashHex(t), ToSigned(Simhash(u))) == Hamming(Simhash(t), Simhash(u)) <= 64
    ensures Features(t) == Features(u) ==> HammingHex(SimhashHex(t), ToSigned(Simhash(u))) == 0
  {
    Pow64();
    SignsBound(Features(t), 64, 64);
    SignsBound(Features(u), 64, 64);
    HexRoundTrip(Simhash(t), 16);
    SignedRoundTrip(Simhash(u));
    HammingBound(Simhash(t), Simhash(u), 64);
    HammingMetric(Simhash(t), Simhash(u), 0);
  }
}
