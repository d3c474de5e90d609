/** Sequence helpers shared by the model: `slice(0, n)`, first-occurrence de-duplication,
    `filter`, the stable descending `sort` of `Array.prototype.sort((a, b) => b.x - a.x)`,
    order-preserving subsequences and sums. */
module Seqs {
  import opened Base

  /** `s.slice(0, n)` for n >= 0. */
  function Take<T>(s: seq<T>, n: nat): (r: seq<T>)
    ensures |r| == Min(n, |s|)
    ensures forall i :: 0 <= i < |r| ==> r[i] == s[i]
  {
    if n <= |s| then s[..n] else s
  }

  predicate NoDup<T(==)>(s: seq<T>) {
    forall i, j :: 0 <= i < j < |s| ==> s[i] != s[j]
  }

  /** The elements of `s` in order of first occurrence, each once
      (what inserting into a JavaScript `Set` or object keys produces). */
  function Distinct<T(==)>(s: seq<T>): seq<T> {
    if s == [] then []
    else
      var d := Distinct(s[..|s| - 1]);
      if s[|s| - 1] in d then d else d + [s[|s| - 1]]
  }

  /** De-duplication keeps exactly the elements of `s`, each once. */
  lemma {:induction false} DistinctFacts<T>(s: seq<T>)
    ensures NoDup(Distinct(s))
    ensures forall x :: x in Distinct(s) <==> x in s
    ensures |Distinct(s)| <= |s|
  {
    if s != [] {
      var init := s[..|s| - 1];
      DistinctFacts(init);
      assert s == init + [s[|s| - 1]];
    }
  }

  /** A sequence has no repeated element exactly when de-duplicating it loses nothing. */
  lemma {:induction false} DistinctKeepsAllIffNoDup<T>(s: seq<T>)
    ensures |Distinct(s)| == |s| <==> NoDup(s)
    ensures NoDup(s) ==> Distinct(s) == s
  {
    if s != [] {
      var init := s[..|s| - 1];
      DistinctKeepsAllIffNoDup(init);
      DistinctFacts(init);
      if NoDup(s) {
        assert NoDup(init) by {
          forall i, j | 0 <= i < j < |init| ensures init[i] != init[j] {
            assert init[i] == s[i] && init[j] == s[j];
          }
        }
        assert s[|s| - 1] !in init by {
          forall i | 0 <= i < |init| ensures init[i] != s[|s| - 1] {
            assert init[i] == s[i];
          }
        }
        assert s == init + [s[|s| - 1]];
      }
      if |Distinct(s)| == |s| {
        assert s[|s| - 1] !in Distinct(init);
        assert Distinct(init) == init;
        forall i, j | 0 <= i < j < |s| ensures s[i] != s[j] {
          if j < |s| - 1 {
            assert s[i] == init[i] && s[j] == init[j];
          } else {
            assert s[i] == init[i];
          }
        }
      }
    }
  }

  /** `s.filter(p)`. */
  function Filter<T>(s: seq<T>, p: T -> bool): (r: seq<T>)
    ensures |r| <= |s|
  {
    if s == [] then []
    else
      var f := Filter(s[..|s| - 1], p);
      if p(s[|s| - 1]) then f + [s[|s| - 1]] else f
  }

  /** The filter keeps exactly the elements satisfying `p`, in their order. */
  lemma {:induction false} FilterFacts<T>(s: seq<T>, p: T -> bool)
    ensures forall i :: 0 <= i < |Filter(s, p)| ==> Filter(s, p)[i] in s && p(Filter(s, p)[i])
    ensures forall i :: 0 <= i < |s| && p(s[i]) ==> s[i] in Filter(s, p)
    ensures IsSubseq(Filter(s, p), s)
  {
    if s != [] {
      var init := s[..|s| - 1];
      var f := Filter(init, p);
      FilterFacts(init, p);
      assert init + [s[|s| - 1]] == s;
      SubseqExtend(f, init, s[|s| - 1]);
    }
  }

  /** `a` is `b` with some elements removed, the rest kept in order. */
  predicate IsSubseq<T(==)>(a: seq<T>, b: seq<T>)
    decreases |b|
  {
    if a == [] then true
    else if b == [] then false
    else (a[|a| - 1] == b[|b| - 1] && IsSubseq(a[..|a| - 1], b[..|b| - 1])) || IsSubseq(a, b[..|b| - 1])
  }

  lemma {:induction false} IsSubseqElements<T>(a: seq<T>, b: seq<T>)
    requires IsSubseq(a, b)
    ensures forall i :: 0 <= i < |a| ==> a[i] in b
    ensures |a| <= |b|
    decreases |b|
  {
    if a != [] {
      if a[|a| - 1] == b[|b| - 1] && IsSubseq(a[..|a| - 1], b[..|b| - 1]) {
        IsSubseqElements(a[..|a| - 1], b[..|b| - 1]);
        assert a == a[..|a| - 1] + [a[|a| - 1]];
        assert b == b[..|b| - 1] + [b[|b| - 1]];
      } else {
        IsSubseqElements(a, b[..|b| - 1]);
        assert b == b[..|b| - 1] + [b[|b| - 1]];
      }
    }
  }

  /** A subsequence stays one when an element is appended to the longer sequence, or to both. */
  lemma SubseqExtend<T>(a: seq<T>, b: seq<T>, x: T)
    requires IsSubseq(a, b)
    ensures IsSubseq(a, b + [x])
    ensures IsSubseq(a + [x], b + [x])
  {
    assert (b + [x])[..|b|] == b;
    assert (a + [x])[..|a|] == a;
  }

  predicate SortedDesc<T>(s: seq<T>, key: T -> real) {
    forall i, j :: 0 <= i < j < |s| ==> key(s[i]) >= key(s[j])
  }

  /** Inserts `x` after every element whose key is at least `key(x)`. */
  function InsertDesc<T>(t: seq<T>, x: T, key: T -> real): seq<T> {
    if t == [] then [x]
    else if key(t[|t| - 1]) >= key(x) then t + [x]
    else InsertDesc(t[..|t| - 1], x, key) + [t[|t| - 1]]
  }

  /** Insertion adds `x` and keeps every other element. */
  lemma {:induction false} InsertDescPermutes<T>(t: seq<T>, x: T, key: T -> real)
    ensures multiset(InsertDesc(t, x, key)) == multiset(t) + multiset{x}
    ensures |InsertDesc(t, x, key)| == |t| + 1
    ensures forall i :: 0 <= i < |InsertDesc(t, x, key)| ==> InsertDesc(t, x, key)[i] == x || InsertDesc(t, x, key)[i] in t
  {
    if t != [] && key(t[|t| - 1]) < key(x) {
      var init := t[..|t| - 1];
      var last := t[|t| - 1];
      var ins := InsertDesc(init, x, key);
      var r := InsertDesc(t, x, key);
      InsertDescPermutes(init, x, key);
      assert r == ins + [last];
      assert t == init + [last];
      assert multiset(r) == multiset(ins) + multiset{last};
      forall i | 0 <= i < |r| ensures r[i] == x || r[i] in t {
        if i < |ins| {
          assert r[i] == ins[i];
          if ins[i] != x {
            var k :| 0 <= k < |init| && init[k] == ins[i];
            assert t[k] == init[k];
          }
        }
      }
    }
  }

  /** Insertion into a list sorted by descending key keeps it sorted. */
  lemma {:induction false} InsertDescSorted<T>(t: seq<T>, x: T, key: T -> real)
    requires SortedDesc(t, key)
    ensures SortedDesc(InsertDesc(t, x, key), key)
  {
    if t != [] && key(t[|t| - 1]) < key(x) {
      var init := t[..|t| - 1];
      var last := t[|t| - 1];
      var ins := InsertDesc(init, x, key);
      InsertDescSorted(init, x, key);
      InsertDescPermutes(init, x, key);
      forall i | 0 <= i < |ins| ensures key(ins[i]) >= key(last) {
        if ins[i] != x {
          var k :| 0 <= k < |init| && init[k] == ins[i];
          assert t[k] == init[k];
        }
      }
    }
  }

  /** The stable descending sort of `s` by `key`: each element is inserted, in input order, after
      every element already placed whose key is at least its own. */
  function SortDesc<T>(s: seq<T>, key: T -> real): seq<T> {
    if s == [] then [] else InsertDesc(SortDesc(s[..|s| - 1], key), s[|s| - 1], key)
  }

  /** The sort yields a permutation of its input in non-increasing key order. */
  lemma {:induction false} SortDescFacts<T>(s: seq<T>, key: T -> real)
    ensures SortedDesc(SortDesc(s, key), key)
    ensures multiset(SortDesc(s, key)) == multiset(s)
    ensures |SortDesc(s, key)| == |s|
  {
    if s != [] {
      var init := s[..|s| - 1];
      SortDescFacts(init, key);
      InsertDescSorted(SortDesc(init, key), s[|s| - 1], key);
      InsertDescPermutes(SortDesc(init, key), s[|s| - 1], key);
      assert s == init + [s[|s| - 1]];
    }
  }

  function SumReals(s: seq<real>): real {
    if s == [] then 0.0 else SumReals(s[..|s| - 1]) + s[|s| - 1]
  }

  function SumInts(s: seq<int>): int {
    if s == [] then 0 else SumInts(s[..|s| - 1]) + s[|s| - 1]
  }

  /** The concatenation of a sequence of sequences. */
  function Flatten<T>(ss: seq<seq<T>>): seq<T> {
    if ss == [] then [] else Flatten(ss[..|ss| - 1]) + ss[|ss| - 1]
  }

  /** The number of times `x` occurs in `s`. */
  function Occurrences<T(==)>(s: seq<T>, x: T): nat {
    if s == [] then 0 else Occurrences(s[..|s| - 1], x) + (if s[|s| - 1] == x then 1 else 0)
  }

  lemma {:induction false} OccurrencesPositive<T>(s: seq<T>, x: T)
    ensures x in s <==> Occurrences(s, x) >= 1
  {
    if s != [] {
      OccurrencesPositive(s[..|s| - 1], x);
      assert s == s[..|s| - 1] + [s[|s| - 1]];
    }
  }

  /** `s.map(f)`. */
  function Map<A, B>(s: seq<A>, f: A -> B): (r: seq<B>)
    ensures |r| == |s|
  {
    if s == [] then [] else Map(s[..|s| - 1], f) + [f(s[|s| - 1])]
  }

  /** The mapped sequence holds `f` of each element, in order. */
  lemma {:induction false} MapFacts<A, B>(s: seq<A>, f: A -> B)
    ensures forall i :: 0 <= i < |s| ==> Map(s, f)[i] == f(s[i])
  {
    if s != [] {
      MapFacts(s[..|s| - 1], f);
    }
  }

  /** Mapping one more element appends its image. */
  lemma MapStep<A, B>(s: seq<A>, f: A -> B, i: nat)
    requires i < |s|
    ensures Map(s[..i + 1], f) == Map(s[..i], f) + [f(s[i])]
  {
    assert s[..i + 1][..i] == s[..i];
  }

  /** `new Set(s.map(f))`. */
  function Image<A, B>(s: seq<A>, f: A -> B): set<B> {
    if s == [] then {} else Image(s[..|s| - 1], f) + {f(s[|s| - 1])}
  }

  /** A value is in the image exactly when it is `f` of some element. */
  lemma {:induction false} ImageMembership<A, B>(s: seq<A>, f: A -> B, y: B)
    ensures y in Image(s, f) <==> exists i :: 0 <= i < |s| && f(s[i]) == y
  {
    if s != [] {
      var init := s[..|s| - 1];
      ImageMembership(init, f, y);
      if exists i :: 0 <= i < |init| && f(init[i]) == y {
        var i :| 0 <= i < |init| && f(init[i]) == y;
        assert s[i] == init[i];
      }
      if exists i :: 0 <= i < |s| && f(s[i]) == y {
        var i :| 0 <= i < |s| && f(s[i]) == y;
        if i < |init| {
          assert init[i] == s[i];
        }
      }
    }
  }
  /** `s.findIndex(p)`, with `None` for -1. */
  function FirstIndex<T>(s: seq<T>, p: T -> bool): (r: Option<nat>)
    ensures r.Some? ==> r.value < |s|
  {
    if s == [] then None
    else if p(s[0]) then Some(0)
    else match FirstIndex(s[1..], p)
      case None => None
      case Some(i) => Some(i + 1)
  }

  /** The index found is the first one whose element satisfies `p`; none is found exactly when
      no element does. */
  lemma {:induction false} FirstIndexFacts<T>(s: seq<T>, p: T -> bool)
    ensures FirstIndex(s, p).Some? ==> p(s[FirstIndex(s, p).value])
    ensures FirstIndex(s, p).Some? ==> forall j :: 0 <= j < FirstIndex(s, p).value ==> !p(s[j])
    ensures FirstIndex(s, p).None? <==> forall j :: 0 <= j < |s| ==> !p(s[j])
  {
    if s != [] && !p(s[0]) {
      FirstIndexFacts(s[1..], p);
      assert forall j :: 1 <= j < |s| ==> s[j] == s[1..][j - 1];
    }
  }

  /** De-duplicating a prefix of `s` gives a prefix of the de-duplicated `s`: the elements come
      out in the order of their first occurrence. */
  lemma {:induction false} DistinctPrefix<T>(s: seq<T>, i: nat)
    requires i <= |s|
    ensures Distinct(s[..i]) <= Distinct(s)
    decreases |s| - i
  {
    if i < |s| {
      DistinctPrefix(s, i + 1);
      assert s[..i + 1][..i] == s[..i];
    } else {
      assert s[..i] == s;
    }
  }
  /** A value is `f` of a kept element exactly when it is `f` of an element satisfying `p`. */
  lemma {:induction false} MapFilterMembership<A, B>(s: seq<A>, p: A -> bool, f: A -> B)
    ensures forall y :: y in Map(Filter(s, p), f) <==> exists i :: 0 <= i < |s| && p(s[i]) && y == f(s[i])
  {
    var kept := Filter(s, p);
    FilterFacts(s, p);
    MapFacts(kept, f);
    forall y | y in Map(kept, f)
      ensures exists i :: 0 <= i < |s| && p(s[i]) && y == f(s[i])
    {
      var k :| 0 <= k < |kept| && Map(kept, f)[k] == y;
      var i :| 0 <= i < |s| && s[i] == kept[k];
    }
    forall i | 0 <= i < |s| && p(s[i])
      ensures f(s[i]) in Map(kept, f)
    {
      var k :| 0 <= k < |kept| && kept[k] == s[i];
      assert Map(kept, f)[k] == f(s[i]);
    }
  }
  /** A value is kept from the mapped sequence exactly when it is `f` of an element and satisfies `p`. */
  lemma {:induction false} FilterOfMapMembership<A, B>(s: seq<A>, f: A -> B, p: B -> bool)
    ensures forall y :: y in Filter(Map(s, f), p) <==> p(y) && exists i :: 0 <= i < |s| && y == f(s[i])
  {
    var m := Map(s, f);
    MapFacts(s, f);
    FilterFacts(m, p);
    forall y | y in Filter(m, p)
      ensures exists i :: 0 <= i < |s| && y == f(s[i])
    {
      var i :| 0 <= i < |m| && m[i] == y;
    }
    forall i | 0 <= i < |s| && p(f(s[i]))
      ensures f(s[i]) in Filter(m, p)
    {
      assert m[i] == f(s[i]);
    }
  }

  /** `s` cut into consecutive pieces of `k` elements, the last one possibly shorter: the
      slices `s.slice(i, i + k)` for i = 0, k, 2k, ... below |s|. */
  function Chunks<T>(s: seq<T>, k: nat): seq<seq<T>>
    requires k > 0
    decreases |s|
  {
    if s == [] then [] else [Take(s, k)] + Chunks(s[Min(k, |s|)..], k)
  }

  /** Sending the batch that starts at `i` keeps the batches sent followed by those still to send
      equal to all batches. */
  lemma ChunksAdvance<T>(s: seq<T>, sent: seq<seq<T>>, i: nat, batch: seq<T>, k: nat)
    requires k > 0 && i < |s|
    requires sent + Chunks(s[Min(i, |s|)..], k) == Chunks(s, k)
    requires batch == s[i..Min(i + k, |s|)]
    ensures (sent + [batch]) + Chunks(s[Min(i + k, |s|)..], k) == Chunks(s, k)
  {
    assert s[i..][Min(k, |s| - i)..] == s[Min(i + k, |s|)..];
    assert Take(s[i..], k) == s[i..Min(i + k, |s|)];
    assert Min(i, |s|) == i;
  }

  lemma {:induction false} FlattenCons<T>(a: seq<T>, ss: seq<seq<T>>)
    ensures Flatten([a] + ss) == a + Flatten(ss)
    decreases |ss|
  {
    if ss != [] {
      var init := ss[..|ss| - 1];
      FlattenCons(a, init);
      assert ([a] + ss)[..|ss|] == [a] + init;
    }
  }

  /** The pieces concatenate back to `s`. */
  lemma {:induction false} ChunksFlatten<T>(s: seq<T>, k: nat)
    requires k > 0
    ensures Flatten(Chunks(s, k)) == s
    decreases |s|
  {
    if s != [] {
      var rest := s[Min(k, |s|)..];
      ChunksFlatten(rest, k);
      FlattenCons(Take(s, k), Chunks(rest, k));
      assert Take(s, k) + rest == s;
    }
  }

  /** Every piece is non-empty and holds at most `k` elements. */
  lemma {:induction false} ChunksSizes<T>(s: seq<T>, k: nat)
    requires k > 0
    ensures forall b :: 0 <= b < |Chunks(s, k)| ==> 0 < |Chunks(s, k)[b]| <= k
    decreases |s|
  {
    if s != [] {
      var rest := s[Min(k, |s|)..];
      ChunksSizes(rest, k);
      assert forall b :: 1 <= b < |Chunks(s, k)| ==> Chunks(s, k)[b] == Chunks(rest, k)[b - 1];
    }
  }

  /** There are |s| / k pieces, rounded up. */
  lemma {:induction false} ChunksCount<T>(s: seq<T>, k: nat)
    requires k > 0
    ensures |Chunks(s, k)| == (|s| + k - 1) / k
    decreases |s|
  {
    if s != [] {
      var rest := s[Min(k, |s|)..];
      ChunksCount(rest, k);
      if |s| > k {
        DivStep(|s| + k - 1, k);
      } else {
        DivUnique(|s| + k - 1, k, 1, |s| - 1);
      }
    } else {
      DivUnique(k - 1, k, 0, k - 1);
    }
  }

  lemma DivStep(n: nat, k: nat)
    requires k > 0 && n >= k
    ensures (n - k) / k == n / k - 1
  {
    var q, r := n / k, n % k;
    assert n == q * k + r;
    assert n - k == (q - 1) * k + r;
    DivUnique(n - k, k, q - 1, r);
  }

  /** Euclidean division has one quotient and one remainder. */
  lemma DivUnique(n: int, k: int, q: int, r: int)
    requires k > 0 && 0 <= r < k && n == q * k + r
    ensures n / k == q
  {
    var q', r' := n / k, n % k;
    assert (q - q') * k == r' - r;
    if q - q' >= 1 {
      MulAtLeast(q - q', k);
    } else if q' - q >= 1 {
      MulAtLeast(q' - q, k);
    }
  }

  lemma MulAtLeast(a: int, k: int)
    requires a >= 1 && k > 0
    ensures a * k >= k
  {
    assert a * k == (a - 1) * k + k;
    assert (a - 1) * k >= 0;
  }
  /** The same for a sequence that was itself filtered by `q` first. */
  lemma {:induction false} FilterMapFilterMembership<A, B>(s: seq<A>, q: A -> bool, f: A -> B, p: B -> bool)
    ensures forall y :: y in Filter(Map(Filter(s, q), f), p) <==> p(y) && exists i :: 0 <= i < |s| && q(s[i]) && y == f(s[i])
  {
    var t := Filter(s, q);
    FilterOfMapMembership(t, f, p);
    FilterFacts(s, q);
    forall y | p(y) && exists i :: 0 <= i < |s| && q(s[i]) && y == f(s[i])
      ensures exists k :: 0 <= k < |t| && y == f(t[k])
    {
      var i :| 0 <= i < |s| && q(s[i]) && y == f(s[i]);
      var k :| 0 <= k < |t| && t[k] == s[i];
    }
    forall k | 0 <= k < |t|
      ensures exists i :: 0 <= i < |s| && q(s[i]) && f(t[k]) == f(s[i])
    {
      var i :| 0 <= i < |s| && s[i] == t[k];
    }
  }

  /** Items, over the batches a store accepted: `insertOk(b, batch)` is its answer to batch `b`. */
  function Succeeded<T>(batches: seq<seq<T>>, insertOk: (nat, seq<T>) -> bool): nat {
    if batches == [] then 0
    else
      var b := |batches| - 1;
      Succeeded(batches[..b], insertOk) + if insertOk(b, batches[b]) then |batches[b]| else 0
  }

  /** Items, over the batches a store refused. */
  function Failed<T>(batches: seq<seq<T>>, insertOk: (nat, seq<T>) -> bool): nat {
    if batches == [] then 0
    else
      var b := |batches| - 1;
      Failed(batches[..b], insertOk) + if insertOk(b, batches[b]) then 0 else |batches[b]|
  }

  /** Sending one more batch adds its size to the successes or to the errors. */
  lemma TallyStep<T>(sent: seq<seq<T>>, batch: seq<T>, insertOk: (nat, seq<T>) -> bool)
    ensures Succeeded(sent + [batch], insertOk) == Succeeded(sent, insertOk) + if insertOk(|sent|, batch) then |batch| else 0
    ensures Failed(sent + [batch], insertOk) == Failed(sent, insertOk) + if insertOk(|sent|, batch) then 0 else |batch|
  {
    assert (sent + [batch])[..|sent|] == sent;
  }

  /** Every item sent is counted once, as a success or as an error. */
  lemma {:induction false} SucceededPlusFailed<T>(batches: seq<seq<T>>, insertOk: (nat, seq<T>) -> bool)
    ensures Succeeded(batches, insertOk) + Failed(batches, insertOk) == |Flatten(batches)|
  {
    if batches != [] {
      SucceededPlusFailed(batches[..|batches| - 1], insertOk);
    }
  }
}
