/** What the two scoring scripts share: the profile's lead actors and the
    `filter(score > t).sort(desc).slice(0, n)` ranking of their results. */
module ScriptCommon {
  import opened Base
  import opened JsString
  import opened Seqs
  import opened Catalog

  /** `cast.split(",").slice(0, 3)`, each piece trimmed and 'N/A' skipped, when the cast is
      truthy and not 'N/A'; otherwise nothing. */
  function LeadActors(cast: string): seq<string> {
    if cast == "" || cast == "N/A" then [] else Filter(Take(RawTokens(cast), 3), NotNA)
  }

  /** At most three actors are taken, none of them 'N/A', each of them one of the first three
      trimmed pieces of the cast. */
  lemma LeadActorsFacts(cast: string)
    ensures |LeadActors(cast)| <= 3
    ensures "N/A" !in LeadActors(cast)
    ensures forall a :: a in LeadActors(cast) ==> a in Take(RawTokens(cast), 3)
  {
    if cast != "" && cast != "N/A" {
      FilterFacts(Take(RawTokens(cast), 3), NotNA);
    }
  }

  /** The items whose key is above `t`, best first (ties in input order), at most `n` of them. */
  function TopAbove<T>(xs: seq<T>, key: T -> real, t: real, n: nat): seq<T> {
    Take(SortDesc(Filter(xs, x => key(x) > t), key), n)
  }

  /** The ranking is sorted best first and holds at most `n` items of the input, all above `t`;
      an item above `t` is left out only when `n` better-or-equal items were kept. */
  lemma TopAboveFacts<T>(xs: seq<T>, key: T -> real, t: real, n: nat)
    ensures SortedDesc(TopAbove(xs, key, t, n), key)
    ensures |TopAbove(xs, key, t, n)| <= n
    ensures forall x :: x in TopAbove(xs, key, t, n) ==> x in xs && key(x) > t
    ensures forall i :: 0 <= i < |xs| && key(xs[i]) > t && xs[i] !in TopAbove(xs, key, t, n) ==>
      |TopAbove(xs, key, t, n)| == n &&
      forall j :: 0 <= j < n ==> key(TopAbove(xs, key, t, n)[j]) >= key(xs[i])
  {
    var above := x => key(x) > t;
    var f := Filter(xs, above);
    var s := SortDesc(f, key);
    var r := TopAbove(xs, key, t, n);
    FilterFacts(xs, above);
    SortDescFacts(f, key);
    assert r == Take(s, n);
    forall x | x in r ensures x in xs && key(x) > t {
      var k :| 0 <= k < |r| && r[k] == x;
      assert s[k] == x;
      assert x in multiset(s);
      assert x in multiset(f);
      var m :| 0 <= m < |f| && f[m] == x;
    }
    forall i | 0 <= i < |xs| && key(xs[i]) > t && xs[i] !in r
      ensures |r| == n && forall j :: 0 <= j < n ==> key(r[j]) >= key(xs[i])
    {
      assert xs[i] in f;
      assert xs[i] in multiset(s);
      var m :| 0 <= m < |s| && s[m] == xs[i];
      assert m >= n;
      forall j | 0 <= j < n ensures key(r[j]) >= key(xs[i]) {
        assert r[j] == s[j];
      }
    }
  }
}
