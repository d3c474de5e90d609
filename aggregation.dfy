/** `aggregatePreferences`: a user's watch history folded into genre, actor and director counts,
    the mean running time and the number of records. */
module Aggregation {
  import opened Base
  import opened JsString
  import opened Seqs
  import opened Dicts
  import opened Catalog

  /** `AggregatedPreferences`. */
  datatype Preferences = Preferences(
    genreCounts: Dict<int>,
    actorCounts: Dict<int>,
    directorCounts: Dict<int>,
    averageDuration: real,
    totalMovies: nat)

  function CountsFor(p: Preferences, f: ListField): Dict<int> {
    match f
    case Genres => p.genreCounts
    case Actors => p.actorCounts
    case Directors => p.directorCounts
  }

  /** The counts left after adding one to `d[t]` for each token `t` in turn. */
  function Tally(d: Dict<int>, toks: seq<string>): Dict<int> {
    if toks == [] then d else Incr(Tally(d, toks[..|toks| - 1]), toks[|toks| - 1])
  }

  /** Every counted token of field `f`, record after record. */
  function AllTokens(ms: seq<Movie>, f: ListField): seq<string> {
    if ms == [] then [] else AllTokens(ms[..|ms| - 1], f) + ListTokens(FieldOf(ms[|ms| - 1], f))
  }

  /** The minutes of every record whose duration has a digit run, in record order. */
  function Durations(ms: seq<Movie>): seq<int> {
    if ms == [] then []
    else
      Durations(ms[..|ms| - 1]) +
        match DurationMinutes(ms[|ms| - 1].duration)
        case Some(n) => [n as int]
        case None => []
  }

  /** `durationCount ? totalDuration / durationCount : 0`. */
  function Mean(xs: seq<int>): real {
    if |xs| == 0 then 0.0 else SumInts(xs) as real / |xs| as real
  }

  function Counts(ms: seq<Movie>, f: ListField): Dict<int> {
    Tally(Empty(), AllTokens(ms, f))
  }

  /** What `aggregatePreferences(ms)` returns. */
  function Aggregate(ms: seq<Movie>): Preferences {
    Preferences(Counts(ms, Genres), Counts(ms, Actors), Counts(ms, Directors), Mean(Durations(ms)), |ms|)
  }

  /** What every aggregate satisfies and the rest of the engine relies on: well-formed dictionaries
      whose counts are positive and which never hold the key 'N/A', and a non-negative mean. */
  ghost predicate WellFormed(p: Preferences) {
    GoodCounts(p.genreCounts) && GoodCounts(p.actorCounts) && GoodCounts(p.directorCounts)
    && p.averageDuration >= 0.0
  }

  ghost predicate GoodCounts(d: Dict<int>) {
    Valid(d) && "N/A" !in d.vals && forall k :: k in d.vals ==> d.vals[k] >= 1
  }

  lemma {:induction false} TallyAppend(d: Dict<int>, a: seq<string>, b: seq<string>)
    ensures Tally(d, a + b) == Tally(Tally(d, a), b)
    decreases |b|
  {
    if b == [] {
      assert a + b == a;
    } else {
      assert (a + b)[..|a + b| - 1] == a + b[..|b| - 1];
      TallyAppend(d, a, b[..|b| - 1]);
    }
  }

  /** Counting from scratch lists each distinct token once, in first-seen order, with its number
      of occurrences. */
  lemma TallyFromEmpty(toks: seq<string>)
    ensures Tally(Empty(), toks).keys == Distinct(toks)
    ensures forall k :: k in Tally(Empty(), toks).vals <==> k in toks
    ensures forall k :: k in Tally(Empty(), toks).vals ==> Tally(Empty(), toks).vals[k] == Occurrences(toks, k)
  {
    TallyKeys(toks);
    DistinctFacts(toks);
    TallyVals(toks);
  }

  lemma {:induction false} TallyKeys(toks: seq<string>)
    ensures Tally(Empty(), toks).keys == Distinct(toks)
    ensures forall k :: k in Tally(Empty(), toks).vals <==> k in Distinct(toks)
  {
    if toks != [] {
      TallyKeys(toks[..|toks| - 1]);
    }
  }

  lemma {:induction false} TallyVals(toks: seq<string>)
    ensures forall k :: k in Tally(Empty(), toks).vals ==> Tally(Empty(), toks).vals[k] == Occurrences(toks, k)
  {
    if toks != [] {
      var init := toks[..|toks| - 1];
      var x := toks[|toks| - 1];
      TallyVals(init);
      TallyKeys(init);
      DistinctFacts(init);
      var r0 := Tally(Empty(), init);
      var r := Tally(Empty(), toks);
      assert r.vals == r0.vals[x := if x in r0.vals then r0.vals[x] + 1 else 1];
      forall k | k in r.vals ensures r.vals[k] == Occurrences(toks, k) {
        assert Occurrences(toks, k) == Occurrences(init, k) + (if x == k then 1 else 0);
        if k != x {
          assert k in r0.vals && r.vals[k] == r0.vals[k];
        } else {
          OccurrencesPositive(init, x);
        }
      }
    }
  }

  /** Counted tokens are distinct keys, all stored and all positive. */
  lemma TallyValid(toks: seq<string>)
    ensures Valid(Tally(Empty(), toks))
    ensures forall k :: k in Tally(Empty(), toks).vals ==> Tally(Empty(), toks).vals[k] >= 1
  {
    TallyFromEmpty(toks);
    forall k | k in toks ensures Occurrences(toks, k) >= 1 && k in Distinct(toks) {
      OccurrencesPositive(toks, k);
      var i :| 0 <= i < |toks| && toks[i] == k;
    }
  }

  lemma {:induction false} AllTokensHaveNoNA(ms: seq<Movie>, f: ListField)
    ensures "N/A" !in AllTokens(ms, f)
  {
    if ms != [] {
      AllTokensHaveNoNA(ms[..|ms| - 1], f);
    }
  }

  /** The counts of each field list every counted token once, in first-seen order, with its
      number of occurrences across all records (empty tokens included); 'N/A' is never a key;
      `totalMovies` is the number of records and `averageDuration` the mean of the minutes read. */
  lemma AggregateCounts(ms: seq<Movie>, f: ListField)
    ensures CountsFor(Aggregate(ms), f).keys == Distinct(AllTokens(ms, f))
    ensures forall k :: k in CountsFor(Aggregate(ms), f).vals <==> k in AllTokens(ms, f)
    ensures forall k :: k in CountsFor(Aggregate(ms), f).vals ==>
      CountsFor(Aggregate(ms), f).vals[k] == Occurrences(AllTokens(ms, f), k)
    ensures "N/A" !in CountsFor(Aggregate(ms), f).vals
    ensures Aggregate(ms).totalMovies == |ms|
    ensures Aggregate(ms).averageDuration == Mean(Durations(ms))
  {
    TallyFromEmpty(AllTokens(ms, f));
    AllTokensHaveNoNA(ms, f);
  }

  lemma {:induction false} SumIntsNonNegative(xs: seq<int>)
    requires forall i :: 0 <= i < |xs| ==> xs[i] >= 0
    ensures SumInts(xs) >= 0
  {
    if xs != [] {
      SumIntsNonNegative(xs[..|xs| - 1]);
    }
  }

  lemma MeanNonNegative(xs: seq<int>)
    requires forall i :: 0 <= i < |xs| ==> xs[i] >= 0
    ensures Mean(xs) >= 0.0
  {
    if |xs| > 0 {
      SumIntsNonNegative(xs);
      var a := SumInts(xs) as real;
      var b := |xs| as real;
      assert a / b * b == a;
    }
  }

  lemma {:induction false} DurationsNonNegative(ms: seq<Movie>)
    ensures forall i :: 0 <= i < |Durations(ms)| ==> Durations(ms)[i] >= 0
  {
    if ms != [] {
      DurationsNonNegative(ms[..|ms| - 1]);
    }
  }

  lemma CountsGood(ms: seq<Movie>, f: ListField)
    ensures GoodCounts(Counts(ms, f))
  {
    TallyFromEmpty(AllTokens(ms, f));
    TallyValid(AllTokens(ms, f));
    AllTokensHaveNoNA(ms, f);
  }

  /** Every aggregate is well formed. */
  lemma AggregateWellFormed(ms: seq<Movie>)
    ensures WellFormed(Aggregate(ms))
  {
    var p := Aggregate(ms);
    CountsGood(ms, Genres);
    CountsGood(ms, Actors);
    CountsGood(ms, Directors);
    assert GoodCounts(p.genreCounts) && GoodCounts(p.actorCounts) && GoodCounts(p.directorCounts);
    DurationsNonNegative(ms);
    MeanNonNegative(Durations(ms));
  }

  lemma CountsStep(ms: seq<Movie>, i: nat, f: ListField)
    requires i < |ms|
    ensures Counts(ms[..i + 1], f) == Tally(Counts(ms[..i], f), ListTokens(FieldOf(ms[i], f)))
  {
    var pre := ms[..i + 1];
    assert pre[..|pre| - 1] == ms[..i];
    assert pre[|pre| - 1] == ms[i];
    assert AllTokens(pre, f) == AllTokens(ms[..i], f) + ListTokens(FieldOf(ms[i], f));
    TallyAppend(Empty(), AllTokens(ms[..i], f), ListTokens(FieldOf(ms[i], f)));
  }

  /** One more record adds its minutes, if any, to the durations. */
  lemma DurationsStep(ms: seq<Movie>, i: nat)
    requires i < |ms|
    ensures DurationMinutes(ms[i].duration).Some? ==>
      && SumInts(Durations(ms[..i + 1])) == SumInts(Durations(ms[..i])) + DurationMinutes(ms[i].duration).value
      && |Durations(ms[..i + 1])| == |Durations(ms[..i])| + 1
    ensures DurationMinutes(ms[i].duration).None? ==> Durations(ms[..i + 1]) == Durations(ms[..i])
  {
    var pre := ms[..i + 1];
    assert pre[..|pre| - 1] == ms[..i];
    assert pre[|pre| - 1] == ms[i];
    var ds := Durations(pre);
    if DurationMinutes(ms[i].duration).Some? {
      assert ds == Durations(ms[..i]) + [DurationMinutes(ms[i].duration).value as int];
      assert ds[..|ds| - 1] == Durations(ms[..i]);
    }
  }

  /** Adds one to `d[t]` for each token, as the `forEach` of `aggregatePreferences` does. */
  method CountTokens(d: Dict<int>, toks: seq<string>) returns (r: Dict<int>)
    ensures r == Tally(d, toks)
  {
    r := d;
    for i := 0 to |toks|
      invariant r == Tally(d, toks[..i])
    {
      assert toks[..i + 1][..i] == toks[..i];
      r := Incr(r, toks[i]);
    }
    assert toks[..|toks|] == toks;
  }

  /** Counts the tokens of field `f` of record `i` on top of the counts of the records before it. */
  method CountField(ms: seq<Movie>, i: nat, f: ListField, d: Dict<int>) returns (r: Dict<int>)
    requires i < |ms| && d == Counts(ms[..i], f)
    ensures r == Counts(ms[..i + 1], f)
  {
    CountsStep(ms, i, f);
    r := CountTokens(d, ListTokens(FieldOf(ms[i], f)));
  }

  /** `aggregatePreferences`: one pass over the records updating the three count maps and the
      duration accumulators. */
  method AggregatePreferences(ms: seq<Movie>) returns (p: Preferences)
    ensures p == Aggregate(ms)
  {
    var genres: Dict<int> := Empty();
    var actors: Dict<int> := Empty();
    var directors: Dict<int> := Empty();
    var totalDuration := 0;
    var durationCount := 0;
    for i := 0 to |ms|
      invariant genres == Counts(ms[..i], Genres)
      invariant actors == Counts(ms[..i], Actors)
      invariant directors == Counts(ms[..i], Directors)
      invariant totalDuration == SumInts(Durations(ms[..i]))
      invariant durationCount == |Durations(ms[..i])|
    {
      var m := ms[i];
      genres := CountField(ms, i, Genres, genres);
      actors := CountField(ms, i, Actors, actors);
      directors := CountField(ms, i, Directors, directors);
      DurationsStep(ms, i);
      var minutes := DurationMinutes(m.duration);
      if minutes.Some? {
        totalDuration := totalDuration + minutes.value;
        durationCount := durationCount + 1;
      }
    }
    assert ms[..|ms|] == ms;
    assert genres == Counts(ms, Genres);
    assert actors == Counts(ms, Actors);
    assert directors == Counts(ms, Directors);
    assert totalDuration == SumInts(Durations(ms)) && durationCount == |Durations(ms)|;
    var average := if durationCount != 0 then totalDuration as real / durationCount as real else 0.0;
    p := Preferences(genres, actors, directors, average, |ms|);
  }
}
