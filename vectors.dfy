/** `preferencesToFeatureVector` and `movieToFeatureVector`: the weight maps the scorer compares. */
module FeatureVectors {
  import opened Base
  import opened Seqs
  import opened Dicts
  import opened Catalog
  import opened Aggregation

  /** `FeatureVector`. */
  datatype FeatureVector = FeatureVector(
    genres: Dict<real>,
    actors: Dict<real>,
    directors: Dict<real>,
    duration: real)

  /** Each count divided by the sum of all counts, keys in the same order. */
  function Normalize(d: Dict<int>): Dict<real>
    requires GoodCounts(d)
  {
    var total := CountTotal(d);
    Dict(d.keys, map k | k in d.vals :: d.vals[k] as real / total as real)
  }

  /** `Object.values(d).reduce((sum, count) => sum + count, 0)` over positive counts. */
  function CountTotal(d: Dict<int>): (t: int)
    requires GoodCounts(d)
    ensures d.keys != [] <==> t >= 1
  {
    SumCountsPositive(d.keys, d.vals);
    SumCounts(d.keys, d.vals)
  }

  /** What `preferencesToFeatureVector(p)` returns. */
  function ProfileVector(p: Preferences): FeatureVector
    requires WellFormed(p)
  {
    FeatureVector(Normalize(p.genreCounts), Normalize(p.actorCounts), Normalize(p.directorCounts), p.averageDuration)
  }

  /** Every token gets the same weight `w`; a repeated token keeps its first place. */
  function EqualWeights(toks: seq<string>, w: real): Dict<real> {
    if toks == [] then Empty() else Put(EqualWeights(toks[..|toks| - 1], w), toks[|toks| - 1], w)
  }

  /** The weight of the actor at position `i` of the cast list: 1.0, 0.8 and 0.6 for the first
      three, 0.3 after that. */
  function BillingWeight(i: nat): real {
    if i < 3 then 1.0 - i as real * 0.2 else 0.3
  }

  /** Each actor gets the weight of its position; a repeated actor keeps its first place and the
      weight of its last position. */
  function BillingWeights(toks: seq<string>): Dict<real> {
    if toks == [] then Empty() else Put(BillingWeights(toks[..|toks| - 1]), toks[|toks| - 1], BillingWeight(|toks| - 1))
  }

  /** The genre or director map of a record: weight 1/N for each of its N tokens. */
  function ShareVector(field: string): Dict<real> {
    var toks := ListTokens(field);
    if toks == [] then Empty() else EqualWeights(toks, 1.0 / |toks| as real)
  }

  /** What `movieToFeatureVector(m)` returns. */
  function MovieVector(m: Movie): FeatureVector {
    FeatureVector(
      ShareVector(m.genre),
      BillingWeights(ListTokens(m.cast)),
      ShareVector(m.director),
      match DurationMinutes(m.duration) case Some(n) => n as real case None => 0.0)
  }

  /** The index of the last occurrence of `x` in `s`. */
  predicate IsLastOccurrence<T(==)>(s: seq<T>, i: int) {
    0 <= i < |s| && forall j :: i < j < |s| ==> s[j] != s[i]
  }

  lemma {:induction false} NormalizeWeights(d: Dict<int>)
    requires GoodCounts(d)
    ensures Normalize(d).keys == d.keys
    ensures forall k :: k in Normalize(d).vals <==> k in d.vals
    ensures d.keys != [] ==> forall k :: k in d.vals ==>
      Normalize(d).vals[k] == d.vals[k] as real / CountTotal(d) as real
    ensures Valid(Normalize(d))
    ensures d.keys != [] ==> SumVals(Normalize(d)) == 1.0
  {
    var n := Normalize(d);
    var total := CountTotal(d);
    if d.keys != [] {
      SumOverScaled(d.keys, d.vals, n.vals, total as real);
      RatioIsOne(total as real, total as real);
    }
  }

  /** `preferencesToFeatureVector` keeps exactly the count keys, in order, each weighted by its
      share of the total count, so a non-empty dimension sums to 1 and an empty one stays empty;
      the duration is the profile's mean. */
  lemma ProfileVectorWeights(p: Preferences, f: ListField)
    requires WellFormed(p)
    ensures VectorFor(ProfileVector(p), f).keys == CountsFor(p, f).keys
    ensures forall k :: k in VectorFor(ProfileVector(p), f).vals <==> k in CountsFor(p, f).vals
    ensures CountsFor(p, f).keys != [] ==> forall k :: k in CountsFor(p, f).vals ==>
      VectorFor(ProfileVector(p), f).vals[k] == CountsFor(p, f).vals[k] as real / CountTotal(CountsFor(p, f)) as real
    ensures CountsFor(p, f).keys != [] ==> SumVals(VectorFor(ProfileVector(p), f)) == 1.0
    ensures ProfileVector(p).duration == p.averageDuration
  {
    NormalizeWeights(CountsFor(p, f));
  }

  function VectorFor(v: FeatureVector, f: ListField): Dict<real> {
    match f
    case Genres => v.genres
    case Actors => v.actors
    case Directors => v.directors
  }

  /** Equal weights list each distinct token once, in first-seen order, all with weight `w`. */
  lemma {:induction false} EqualWeightsFacts(toks: seq<string>, w: real)
    ensures EqualWeights(toks, w).keys == Distinct(toks)
    ensures forall k :: k in EqualWeights(toks, w).vals <==> k in Distinct(toks)
    ensures forall k :: k in EqualWeights(toks, w).vals ==> EqualWeights(toks, w).vals[k] == w
  {
    if toks != [] {
      EqualWeightsFacts(toks[..|toks| - 1], w);
    }
  }

  /** Billing weights list each distinct actor once, in first-seen order, and give it the weight
      of the position where it last occurs. */
  lemma {:induction false} BillingWeightsFacts(toks: seq<string>)
    ensures BillingWeights(toks).keys == Distinct(toks)
    ensures forall k :: k in BillingWeights(toks).vals <==> k in Distinct(toks)
    ensures forall i :: IsLastOccurrence(toks, i) ==>
      toks[i] in BillingWeights(toks).vals && BillingWeights(toks).vals[toks[i]] == BillingWeight(i)
  {
    if toks != [] {
      var init := toks[..|toks| - 1];
      BillingWeightsFacts(init);
      DistinctFacts(init);
      forall i | IsLastOccurrence(toks, i)
        ensures toks[i] in BillingWeights(toks).vals && BillingWeights(toks).vals[toks[i]] == BillingWeight(i)
      {
        if i < |toks| - 1 {
          assert IsLastOccurrence(init, i);
          assert init[i] in Distinct(init);
        }
      }
    }
  }

  /** Each genre (or director) of a record weighs 1/N, N counting repeats and empty tokens. */
  lemma ShareVectorWeights(field: string)
    ensures ShareVector(field).keys == Distinct(ListTokens(field))
    ensures forall k :: k in ShareVector(field).vals <==> k in ListTokens(field)
    ensures forall k :: k in ShareVector(field).vals ==>
      ShareVector(field).vals[k] == 1.0 / |ListTokens(field)| as real
  {
    var toks := ListTokens(field);
    DistinctFacts(toks);
    if toks != [] {
      EqualWeightsFacts(toks, 1.0 / |toks| as real);
    }
  }

  /** The weights of a record's genres (or directors) sum to 1 exactly when no token repeats. */
  lemma ShareVectorSum(field: string)
    requires ListTokens(field) != []
    ensures Valid(ShareVector(field))
    ensures SumVals(ShareVector(field)) == 1.0 <==> NoDup(ListTokens(field))
  {
    var toks := ListTokens(field);
    EqualWeightsValid(toks, 1.0 / |toks| as real);
    EqualSharesSum(toks);
  }

  lemma EqualSharesSum(toks: seq<string>)
    requires toks != []
    requires Valid(EqualWeights(toks, 1.0 / |toks| as real))
    ensures SumVals(EqualWeights(toks, 1.0 / |toks| as real)) == 1.0 <==> NoDup(toks)
  {
    var n := |toks| as real;
    var v := EqualWeights(toks, 1.0 / n);
    EqualWeightsFacts(toks, 1.0 / n);
    SumOverShares(v.keys, v.vals, n);
    DistinctKeepsAllIffNoDup(toks);
    RatioIsOne(|Distinct(toks)| as real, n);
  }

  lemma EqualWeightsValid(toks: seq<string>, w: real)
    ensures Valid(EqualWeights(toks, w))
  {
    DistinctFacts(toks);
    EqualWeightsFacts(toks, w);
  }

  lemma RatioIsOne(c: real, n: real)
    requires n > 0.0
    ensures c / n == 1.0 <==> c == n
  {
    if c / n == 1.0 {
      assert c == (c / n) * n;
    }
  }

  /** `movieToFeatureVector`: the first three actors weigh 1.0, 0.8 and 0.6 and later ones 0.3
      (a repeated actor keeps its first place and the weight of its last); the duration is the
      first digit run of the duration field, or 0. */
  lemma MovieVectorWeights(m: Movie)
    ensures MovieVector(m).actors.keys == Distinct(ListTokens(m.cast))
    ensures forall i :: IsLastOccurrence(ListTokens(m.cast), i) ==>
      ListTokens(m.cast)[i] in MovieVector(m).actors.vals &&
      MovieVector(m).actors.vals[ListTokens(m.cast)[i]] == BillingWeight(i)
    ensures MovieVector(m).duration ==
      match DurationMinutes(m.duration) case Some(n) => n as real case None => 0.0
  {
    BillingWeightsFacts(ListTokens(m.cast));
  }

  /** The billing weights are 1.0, 0.8, 0.6 and then 0.3. */
  lemma BillingWeightValues(i: nat)
    ensures i == 0 ==> BillingWeight(i) == 1.0
    ensures i == 1 ==> BillingWeight(i) == 0.8
    ensures i == 2 ==> BillingWeight(i) == 0.6
    ensures i >= 3 ==> BillingWeight(i) == 0.3
    ensures 0.3 <= BillingWeight(i) <= 1.0
  {
  }
}
