/** `Object.entries(counts).sort(([, a], [, b]) => b - a).slice(0, n)`: the keys of a count map
    with the highest counts, ties kept in key order. */
module Ranking {
  import opened Base
  import opened Seqs
  import opened Dicts

  /** `{ item, count }`. */
  datatype Entry = Entry(item: string, count: int)

  /** The count stored under `k`, as the sort compares it. */
  function CountOf(d: Dict<int>, k: string): real {
    if k in d.vals then d.vals[k] as real else 0.0
  }

  /** The keys in non-increasing count order; equal counts keep their key order. */
  function RankedKeys(d: Dict<int>): seq<string> {
    SortDesc(d.keys, k => CountOf(d, k))
  }

  /** The first `n` ranked keys. */
  function TopKeys(d: Dict<int>, n: nat): seq<string> {
    Take(RankedKeys(d), n)
  }

  /** Each key with its count. */
  function Entries(d: Dict<int>, ks: seq<string>): (r: seq<Entry>)
    ensures |r| == |ks|
  {
    if ks == [] then []
    else Entries(d, ks[..|ks| - 1]) + [Entry(ks[|ks| - 1], if ks[|ks| - 1] in d.vals then d.vals[ks[|ks| - 1]] else 0)]
  }

  /** `getTopN(counts, n)`. */
  function TopN(d: Dict<int>, n: nat): seq<Entry> {
    if d.keys == [] then [] else Entries(d, TopKeys(d, n))
  }

  /** The top `n` keys: `min(n, |keys|)` of the map's keys, in non-increasing count order, and
      no key left out has a higher count than any key chosen. */
  lemma TopKeysFacts(d: Dict<int>, n: nat)
    ensures |TopKeys(d, n)| == Min(n, |d.keys|)
    ensures forall i :: 0 <= i < |TopKeys(d, n)| ==> TopKeys(d, n)[i] in d.keys
    ensures forall i, j :: 0 <= i < j < |TopKeys(d, n)| ==>
      CountOf(d, TopKeys(d, n)[i]) >= CountOf(d, TopKeys(d, n)[j])
    ensures forall k, i :: k in d.keys && k !in TopKeys(d, n) && 0 <= i < |TopKeys(d, n)| ==>
      CountOf(d, k) <= CountOf(d, TopKeys(d, n)[i])
  {
    var key := k => CountOf(d, k);
    var sorted := SortDesc(d.keys, key);
    SortDescFacts(d.keys, key);
    var top := TopKeys(d, n);
    assert top == Take(sorted, n);
    forall i | 0 <= i < |top| ensures top[i] in d.keys {
      assert top[i] == sorted[i];
      assert sorted[i] in multiset(sorted);
    }
    forall k, i | k in d.keys && k !in top && 0 <= i < |top|
      ensures CountOf(d, k) <= CountOf(d, top[i])
    {
      assert k in multiset(sorted);
      var j :| 0 <= j < |sorted| && sorted[j] == k;
      assert top[i] == sorted[i];
    }
  }

  /** `getTopN` returns at most `n` entries, none for an empty map, each a key of the map with
      its count, in non-increasing count order. */
  lemma TopNFacts(d: Dict<int>, n: nat)
    requires Valid(d)
    ensures |TopN(d, n)| <= n
    ensures d.keys == [] ==> TopN(d, n) == []
    ensures forall i :: 0 <= i < |TopN(d, n)| ==>
      TopN(d, n)[i].item in d.vals && TopN(d, n)[i].count == d.vals[TopN(d, n)[i].item]
    ensures forall i, j :: 0 <= i < j < |TopN(d, n)| ==> TopN(d, n)[i].count >= TopN(d, n)[j].count
  {
    TopKeysFacts(d, n);
    if d.keys != [] {
      var top := TopKeys(d, n);
      EntriesFacts(d, top);
    }
  }

  lemma {:induction false} EntriesFacts(d: Dict<int>, ks: seq<string>)
    requires forall i :: 0 <= i < |ks| ==> ks[i] in d.vals
    ensures forall i :: 0 <= i < |ks| ==> Entries(d, ks)[i] == Entry(ks[i], d.vals[ks[i]])
  {
    if ks != [] {
      EntriesFacts(d, ks[..|ks| - 1]);
    }
  }
}
