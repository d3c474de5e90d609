/** A JavaScript plain object used as a dictionary with string keys: the keys in insertion order
    (what `Object.keys`, `Object.entries` and `forEach` walk) and the value stored under each. */
module Dicts {
  import opened Seqs

  datatype Dict<V> = Dict(keys: seq<string>, vals: map<string, V>)

  /** Every key is listed once and the listed keys are exactly the stored ones. */
  ghost predicate Valid<V>(d: Dict<V>) {
    NoDup(d.keys) && (forall k :: k in d.vals <==> k in d.keys)
  }

  function Empty<V>(): (d: Dict<V>)
    ensures Valid(d) && d.keys == []
  {
    Dict([], map[])
  }

  /** `d[k] = v`: a new key goes to the end of the key order, an existing key keeps its place. */
  function Put<V>(d: Dict<V>, k: string, v: V): (r: Dict<V>)
    ensures r.vals == d.vals[k := v]
    ensures r.keys == if k in d.vals then d.keys else d.keys + [k]
  {
    if k in d.vals then Dict(d.keys, d.vals[k := v]) else Dict(d.keys + [k], d.vals[k := v])
  }

  /** `d[k] = (d[k] || 0) + 1`. */
  function Incr(d: Dict<int>, k: string): (r: Dict<int>)
    ensures r.vals == d.vals[k := if k in d.vals then d.vals[k] + 1 else 1]
    ensures r.keys == if k in d.vals then d.keys else d.keys + [k]
  {
    Put(d, k, (if k in d.vals && d.vals[k] != 0 then d.vals[k] else 0) + 1)
  }

  lemma {:induction false} NoDupOfSubseq<T>(a: seq<T>, b: seq<T>)
    requires IsSubseq(a, b) && NoDup(b)
    ensures NoDup(a)
    decreases |b|
  {
    if a != [] {
      var bi := b[..|b| - 1];
      assert NoDup(bi) by {
        forall i, j | 0 <= i < j < |bi| ensures bi[i] != bi[j] {
          assert bi[i] == b[i] && bi[j] == b[j];
        }
      }
      if a[|a| - 1] == b[|b| - 1] && IsSubseq(a[..|a| - 1], bi) {
        var ai := a[..|a| - 1];
        NoDupOfSubseq(ai, bi);
        IsSubseqElements(ai, bi);
        forall i, j | 0 <= i < j < |a| ensures a[i] != a[j] {
          assert a[i] == ai[i];
          if j < |a| - 1 {
            assert a[j] == ai[j];
          } else {
            assert a[i] in bi;
            var k :| 0 <= k < |bi| && bi[k] == a[i];
            assert b[k] == a[i];
          }
        }
      } else {
        NoDupOfSubseq(a, bi);
      }
    }
  }

  /** `delete d[k]` on a dictionary. */
  function Delete<V>(d: Dict<V>, k: string): (r: Dict<V>)
    requires Valid(d)
    ensures Valid(r)
    ensures r.vals == d.vals - {k}
    ensures IsSubseq(r.keys, d.keys)
  {
    var ks := Filter(d.keys, x => x != k);
    FilterFacts(d.keys, x => x != k);
    NoDupOfSubseq(ks, d.keys);
    Dict(ks, d.vals - {k})
  }

  /** The sum of `m[k]` over the keys `ks`, in order. */
  function SumOver(ks: seq<string>, m: map<string, real>): real
    requires forall i :: 0 <= i < |ks| ==> ks[i] in m
  {
    if ks == [] then 0.0 else SumOver(ks[..|ks| - 1], m) + m[ks[|ks| - 1]]
  }

  /** `Object.values(d).reduce((s, x) => s + x, 0)`. */
  function SumVals(d: Dict<real>): real
    requires Valid(d)
  {
    SumOver(d.keys, d.vals)
  }

  /** The sum over keys of integer counts, as a real. */
  function SumCounts(ks: seq<string>, m: map<string, int>): int
    requires forall i :: 0 <= i < |ks| ==> ks[i] in m
  {
    if ks == [] then 0 else SumCounts(ks[..|ks| - 1], m) + m[ks[|ks| - 1]]
  }

  /** A sum over keys whose every term is the same value `c` is `c` times the number of keys. */
  lemma {:induction false} SumOverConstant(ks: seq<string>, m: map<string, real>, c: real)
    requires forall i :: 0 <= i < |ks| ==> ks[i] in m && m[ks[i]] == c
    ensures SumOver(ks, m) == |ks| as real * c
  {
    if ks != [] {
      SumOverConstant(ks[..|ks| - 1], m, c);
    }
  }

  /** A sum over keys whose every term is `1/n` is the number of keys divided by `n`. */
  lemma {:induction false} SumOverShares(ks: seq<string>, m: map<string, real>, n: real)
    requires n > 0.0
    requires forall i :: 0 <= i < |ks| ==> ks[i] in m && m[ks[i]] == 1.0 / n
    ensures SumOver(ks, m) == |ks| as real / n
  {
    if ks != [] {
      SumOverShares(ks[..|ks| - 1], m, n);
      assert (|ks| - 1) as real / n + 1.0 / n == |ks| as real / n;
    }
  }

  /** Dividing every term by `t` divides the sum by `t`. */
  lemma {:induction false} SumOverScaled(ks: seq<string>, m: map<string, int>, w: map<string, real>, t: real)
    requires t != 0.0
    requires forall i :: 0 <= i < |ks| ==> ks[i] in m && ks[i] in w && w[ks[i]] == m[ks[i]] as real / t
    ensures SumOver(ks, w) == SumCounts(ks, m) as real / t
  {
    if ks != [] {
      SumOverScaled(ks[..|ks| - 1], m, w, t);
    }
  }

  /** A sum of positive counts over a non-empty key list is positive. */
  lemma {:induction false} SumCountsPositive(ks: seq<string>, m: map<string, int>)
    requires forall i :: 0 <= i < |ks| ==> ks[i] in m && m[ks[i]] > 0
    ensures SumCounts(ks, m) >= |ks|
  {
    if ks != [] {
      SumCountsPositive(ks[..|ks| - 1], m);
    }
  }
}
