/** The improved-similarity test script: a profile aggregated from system movies, the
    `calculateImprovedSimilarity` score (whose denominator holds only the dimensions that
    contribute), the top-15 ranking and the score distribution. */
module ImprovedSimilarity {
  import opened Base
  import opened JsString
  import opened Seqs
  import opened Dicts
  import opened Catalog
  import opened Aggregation
  import opened Similarity
  import opened Diversity
  import opened ScriptCommon
  import Recommend

  // ---------------------------------------------------------------------------------------------
  // The score

  /** A dimension that enters the score: its weight, which is added to the denominator, and its
      sub-score. */
  datatype Term = Term(weight: real, score: real)

  function Weight(f: ListField): real {
    match f
    case Genres => 0.35
    case Actors => 0.35
    case Directors => 0.20
  }

  /** The sub-score of a list dimension with `u` profile keys, `c` candidate pieces and `k`
      matches: the matched share of the profile's keys plus the dimension's bonuses. */
  function ListScore(f: ListField, u: nat, c: nat, k: nat): real
    requires 0 < k <= u
  {
    var ratio := k as real / u as real;
    var overlap := k as real / Max(u, c) as real;
    match f
    case Genres => ratio + MinReal(overlap, 0.3)
    case Actors => ratio + (if k >= 2 then 0.2 else 0.0) + MinReal(overlap, 0.2)
    case Directors => ratio + 0.3
  }

  /** The list dimension `f` enters only when some profile key matches. */
  function ListTerm(d: Dict<int>, field: string, f: ListField): seq<Term> {
    var k := |Matched(d.keys, field)|;
    if k == 0 then [] else [Term(Weight(f), ListScore(f, |d.keys|, |CandidateTokens(field)|, k))]
  }

  /** Duration enters whenever the profile's duration is positive and the candidate's duration
      has a digit run, even when the step gives 0. */
  function DurationTerm(avg: real, field: string): seq<Term> {
    if avg > 0.0 then
      match DurationMinutes(field)
      case Some(n) => [Term(0.10, DurationStep(AbsReal(avg - n as real)))]
      case None => []
    else []
  }

  /** The dimensions that enter, in the order the script checks them. */
  function Terms(p: Preferences, m: Movie): seq<Term> {
    []
    + ListTerm(p.genreCounts, m.genre, Genres)
    + ListTerm(p.actorCounts, m.cast, Actors)
    + ListTerm(p.directorCounts, m.director, Directors)
    + DurationTerm(p.averageDuration, m.duration)
  }

  function TotalWeight(ts: seq<Term>): real {
    if ts == [] then 0.0 else TotalWeight(ts[..|ts| - 1]) + ts[|ts| - 1].weight
  }

  function WeightedTotal(ts: seq<Term>): real {
    if ts == [] then 0.0 else WeightedTotal(ts[..|ts| - 1]) + ts[|ts| - 1].score * ts[|ts| - 1].weight
  }

  /** The weighted mean of the sub-scores, or 0 when no dimension enters. */
  function WeightedMean(ts: seq<Term>): real {
    if TotalWeight(ts) > 0.0 then WeightedTotal(ts) / TotalWeight(ts) else 0.0
  }

  /** The value `calculateImprovedSimilarity(p, m)` returns. */
  function ImprovedScore(p: Preferences, m: Movie): real {
    WeightedMean(Terms(p, m))
  }

  /** `calculateImprovedSimilarity`: `totalScore` and `maxPossibleScore` grow dimension by
      dimension, and their ratio is returned. */
  method CalculateImprovedSimilarity(p: Preferences, m: Movie) returns (score: real)
    ensures score == ImprovedScore(p, m)
  {
    var totalScore := 0.0;
    var maxPossibleScore := 0.0;
    ghost var entered: seq<Term> := [];
    totalScore, maxPossibleScore := AddListDimension(p.genreCounts, m.genre, Genres, totalScore, maxPossibleScore);
    TotalsAppend(entered, ListTerm(p.genreCounts, m.genre, Genres));
    entered := entered + ListTerm(p.genreCounts, m.genre, Genres);
    totalScore, maxPossibleScore := AddListDimension(p.actorCounts, m.cast, Actors, totalScore, maxPossibleScore);
    TotalsAppend(entered, ListTerm(p.actorCounts, m.cast, Actors));
    entered := entered + ListTerm(p.actorCounts, m.cast, Actors);
    totalScore, maxPossibleScore :=
      AddListDimension(p.directorCounts, m.director, Directors, totalScore, maxPossibleScore);
    TotalsAppend(entered, ListTerm(p.directorCounts, m.director, Directors));
    entered := entered + ListTerm(p.directorCounts, m.director, Directors);
    if p.averageDuration > 0.0 && m.duration != "" && m.duration != "N/A" {
      var minutes := FirstDigitRun(m.duration);
      if minutes.Some? {
        var difference := AbsReal(p.averageDuration - minutes.value as real);
        var durationScore := DurationStep(difference);
        totalScore := totalScore + durationScore * 0.10;
        maxPossibleScore := maxPossibleScore + 0.10;
        entered := entered + [Term(0.10, durationScore)];
      }
    }
    assert entered == Terms(p, m);
    score := if maxPossibleScore > 0.0 then totalScore / maxPossibleScore else 0.0;
  }

  /** One of the genre, actor and director blocks: the matching profile keys are counted and,
      when there are any, the weighted sub-score and the weight are added. */
  method AddListDimension(d: Dict<int>, field: string, f: ListField, totalScore: real, maxPossibleScore: real)
    returns (total: real, maxPossible: real)
    ensures total == totalScore + WeightedTotal(ListTerm(d, field, f))
    ensures maxPossible == maxPossibleScore + TotalWeight(ListTerm(d, field, f))
  {
    total, maxPossible := totalScore, maxPossibleScore;
    var userKeys := d.keys;
    if field != "" && field != "N/A" {
      var matching := Matched(userKeys, field);
      if |matching| > 0 {
        var dimensionScore := ListScore(f, |userKeys|, |RawTokens(field)|, |matching|);
        total := total + dimensionScore * Weight(f);
        maxPossible := maxPossible + Weight(f);
        assert ListTerm(d, field, f) == [Term(Weight(f), dimensionScore)];
      }
    } else {
      NothingMatched(userKeys, field);
    }
  }


  // ---------------------------------------------------------------------------------------------
  // Properties of the score

  /** A list dimension enters exactly when one of the profile's keys is among the candidate's
      pieces, and the field is then truthy and not 'N/A'. */
  lemma ListTermEnters(d: Dict<int>, field: string, f: ListField)
    ensures ListTerm(d, field, f) != [] <==>
      exists i :: 0 <= i < |d.keys| && d.keys[i] in CandidateTokens(field)
    ensures ListTerm(d, field, f) != [] ==> field != "" && field != "N/A"
  {
    var p := k => k in CandidateTokens(field);
    FilterFacts(d.keys, p);
    if exists i :: 0 <= i < |d.keys| && d.keys[i] in CandidateTokens(field) {
      var i :| 0 <= i < |d.keys| && d.keys[i] in CandidateTokens(field);
      assert d.keys[i] in Matched(d.keys, field);
    }
    if ListTerm(d, field, f) != [] {
      assert Matched(d.keys, field)[0] in CandidateTokens(field);
    }
  }

  /** Duration enters exactly when the profile's duration is positive and the candidate's has a
      digit run. */
  lemma DurationTermEnters(avg: real, field: string)
    ensures DurationTerm(avg, field) != [] <==> avg > 0.0 && DurationMinutes(field).Some?
    ensures |DurationTerm(avg, field)| <= 1
  {
  }

  /** A list dimension that enters has a positive sub-score of at most 1.3 for genres and
      directors and at most 1.4 for actors. */
  lemma ListScoreBounds(f: ListField, u: nat, c: nat, k: nat)
    requires 0 < k <= u
    ensures 0.0 < ListScore(f, u, c, k)
    ensures ListScore(f, u, c, k) <= (if f == Actors then 1.4 else 1.3)
  {
    var ratio := k as real / u as real;
    assert ratio * u as real == k as real;
    assert 0.0 < ratio <= 1.0;
    var overlap := k as real / Max(u, c) as real;
    assert overlap * Max(u, c) as real == k as real;
    assert overlap > 0.0;
  }

  /** Every term has a positive weight and a sub-score between 0 and `hi`. */
  predicate TermsWithin(ts: seq<Term>, hi: real) {
    forall i :: 0 <= i < |ts| ==> ts[i].weight > 0.0 && 0.0 <= ts[i].score <= hi
  }

  lemma TermsWithinAppend(a: seq<Term>, b: seq<Term>, hi: real)
    requires TermsWithin(a, hi) && TermsWithin(b, hi)
    ensures TermsWithin(a + b, hi)
  {
    forall i | 0 <= i < |a + b| ensures (a + b)[i].weight > 0.0 && 0.0 <= (a + b)[i].score <= hi {
      if i >= |a| {
        assert (a + b)[i] == b[i - |a|];
      }
    }
  }

  /** At most four terms enter, each with a positive weight and a sub-score between 0 and 1.4. */
  lemma TermsBounded(p: Preferences, m: Movie)
    ensures TermsWithin(Terms(p, m), 1.4)
    ensures |Terms(p, m)| <= 4
  {
    var g := ListTerm(p.genreCounts, m.genre, Genres);
    var a := ListTerm(p.actorCounts, m.cast, Actors);
    var d := ListTerm(p.directorCounts, m.director, Directors);
    var du := DurationTerm(p.averageDuration, m.duration);
    assert [] + g == g;
    assert Terms(p, m) == g + a + d + du;
    ListTermBounded(p.genreCounts, m.genre, Genres);
    ListTermBounded(p.actorCounts, m.cast, Actors);
    ListTermBounded(p.directorCounts, m.director, Directors);
    DurationTermBounded(p.averageDuration, m.duration);
    TermsWithinAppend(g, a, 1.4);
    TermsWithinAppend(g + a, d, 1.4);
    TermsWithinAppend(g + a + d, du, 1.4);
  }

  lemma ListTermBounded(d: Dict<int>, field: string, f: ListField)
    ensures |ListTerm(d, field, f)| <= 1
    ensures TermsWithin(ListTerm(d, field, f), 1.4)
    ensures forall t :: t in ListTerm(d, field, f) ==> 0.0 < t.score
  {
    var k := |Matched(d.keys, field)|;
    if k > 0 {
      ListScoreBounds(f, |d.keys|, |CandidateTokens(field)|, k);
    }
  }

  /** The duration term, when it enters, has weight 0.10 and a step between 0 and 1. */
  lemma DurationTermBounded(avg: real, field: string)
    ensures |DurationTerm(avg, field)| <= 1
    ensures TermsWithin(DurationTerm(avg, field), 1.0) && TermsWithin(DurationTerm(avg, field), 1.4)
  {
  }

  lemma {:induction false} TotalsBounded(ts: seq<Term>, hi: real)
    requires TermsWithin(ts, hi)
    ensures ts != [] ==> TotalWeight(ts) > 0.0
    ensures 0.0 <= WeightedTotal(ts) <= hi * TotalWeight(ts)
  {
    if ts != [] {
      var init := ts[..|ts| - 1];
      TotalsBounded(init, hi);
      var t := ts[|ts| - 1];
      assert t.score * t.weight <= hi * t.weight;
    }
  }

  /** Both totals of a concatenation add up. */
  lemma {:induction false} TotalsAppend(x: seq<Term>, y: seq<Term>)
    ensures TotalWeight(x + y) == TotalWeight(x) + TotalWeight(y)
    ensures WeightedTotal(x + y) == WeightedTotal(x) + WeightedTotal(y)
    decreases |y|
  {
    if y == [] {
      assert x + y == x;
    } else {
      var yi := y[..|y| - 1];
      TotalsAppend(x, yi);
      assert (x + y)[..|x + y| - 1] == x + yi;
      assert (x + y)[|x + y| - 1] == y[|y| - 1];
    }
  }

  /** A single term with a positive weight and a positive sub-score has a positive total. */
  lemma OneTermPositive(ts: seq<Term>)
    requires |ts| == 1 && ts[0].weight > 0.0 && ts[0].score > 0.0
    ensures WeightedTotal(ts) > 0.0
  {
    assert ts[..0] == [];
    assert WeightedTotal(ts) == ts[0].score * ts[0].weight;
  }

  /** The weighted mean of sub-scores in [0, hi] lies in [0, hi], and is positive when the
      weighted total is. */
  lemma WeightedMeanBounds(ts: seq<Term>, hi: real)
    requires TermsWithin(ts, hi)
    ensures 0.0 <= WeightedMean(ts) && (ts != [] ==> WeightedMean(ts) <= hi)
    ensures ts == [] ==> WeightedMean(ts) == 0.0
    ensures WeightedTotal(ts) > 0.0 ==> WeightedMean(ts) > 0.0
  {
    TotalsBounded(ts, hi);
    if ts != [] {
      var w := TotalWeight(ts);
      var q := WeightedTotal(ts) / w;
      assert q * w == WeightedTotal(ts);
    }
  }

  /** The score lies in [0, 1.4]; it is 0 when no dimension enters and positive when a genre,
      actor or director dimension enters. */
  lemma ImprovedScoreBounds(p: Preferences, m: Movie)
    ensures 0.0 <= ImprovedScore(p, m) <= 1.4
    ensures Terms(p, m) == [] ==> ImprovedScore(p, m) == 0.0
    ensures (|| ListTerm(p.genreCounts, m.genre, Genres) != []
             || ListTerm(p.actorCounts, m.cast, Actors) != []
             || ListTerm(p.directorCounts, m.director, Directors) != []) ==> ImprovedScore(p, m) > 0.0
  {
    var ts := Terms(p, m);
    TermsBounded(p, m);
    WeightedMeanBounds(ts, 1.4);
    var g := ListTerm(p.genreCounts, m.genre, Genres);
    var a := ListTerm(p.actorCounts, m.cast, Actors);
    var d := ListTerm(p.directorCounts, m.director, Directors);
    var du := DurationTerm(p.averageDuration, m.duration);
    if g != [] || a != [] || d != [] {
      assert [] + g == g;
      assert ts == g + a + d + du;
      ListTermBounded(p.genreCounts, m.genre, Genres);
      ListTermBounded(p.actorCounts, m.cast, Actors);
      ListTermBounded(p.directorCounts, m.director, Directors);
      DurationTermBounded(p.averageDuration, m.duration);
      TotalsBounded(g, 1.4);
      TotalsBounded(a, 1.4);
      TotalsBounded(d, 1.4);
      TotalsBounded(du, 1.4);
      TotalsAppend(g, a);
      TotalsAppend(g + a, d);
      TotalsAppend(g + a + d, du);
      if g != [] {
        OneTermPositive(g);
      } else if a != [] {
        OneTermPositive(a);
      } else {
        OneTermPositive(d);
      }
    }
  }

  /** A candidate whose genre, cast, director and duration are all 'N/A' scores 0. */
  lemma AllNotAvailableScoresZero(p: Preferences, m: Movie)
    requires m.genre == "N/A" && m.cast == "N/A" && m.director == "N/A" && m.duration == "N/A"
    ensures Terms(p, m) == [] && ImprovedScore(p, m) == 0.0
  {
    NothingMatched(p.genreCounts.keys, m.genre);
    NothingMatched(p.actorCounts.keys, m.cast);
    NothingMatched(p.directorCounts.keys, m.director);
  }

  /** When duration is the only dimension that enters, the score is its step alone: the
      denominator does not count the other dimensions. */
  lemma DurationOnly(p: Preferences, m: Movie)
    requires ListTerm(p.genreCounts, m.genre, Genres) == []
    requires ListTerm(p.actorCounts, m.cast, Actors) == []
    requires ListTerm(p.directorCounts, m.director, Directors) == []
    requires p.averageDuration > 0.0 && DurationMinutes(m.duration).Some?
    ensures ImprovedScore(p, m) == DurationStep(AbsReal(p.averageDuration - DurationMinutes(m.duration).value as real))
  {
    var s := DurationStep(AbsReal(p.averageDuration - DurationMinutes(m.duration).value as real));
    var t := Term(0.10, s);
    assert Terms(p, m) == [t];
    assert [t][..0] == [];
    assert TotalWeight([t]) == 0.10;
    assert WeightedTotal([t]) == s * 0.10;
  }

  /** A profile duration of 120 against "125 min" with nothing else in common scores exactly 1. */
  lemma DurationOnlyExample(p: Preferences, m: Movie)
    requires ListTerm(p.genreCounts, m.genre, Genres) == []
    requires ListTerm(p.actorCounts, m.cast, Actors) == []
    requires ListTerm(p.directorCounts, m.director, Directors) == []
    requires p.averageDuration == 120.0 && m.duration == "125 min"
    ensures ImprovedScore(p, m) == 1.0
  {
    var d := m.duration;
    assert IsDigit(d[0]) && IsDigit(d[1]) && IsDigit(d[2]) && !IsDigit(d[3]);
    assert LeadingDigits(d) == 3;
    var ds := d[..3];
    assert ds[..2][..1] == "1" && ds[..2] == "12";
    assert DecimalValue("1") == 1;
    assert DecimalValue("12") == 12;
    assert DecimalValue(ds) == 125;
    assert DurationMinutes(d) == Some(125);
    DurationOnly(p, m);
  }

  // ---------------------------------------------------------------------------------------------
  // The profile aggregated inline from the system movies

  function GenreTokens(m: Movie): seq<string> { ListTokens(m.genre) }

  function ActorTokens(m: Movie): seq<string> { LeadActors(m.cast) }

  function DirectorTokens(m: Movie): seq<string> { ListTokens(m.director) }

  /** The tokens of every movie in turn. */
  function TokensOf(ms: seq<Movie>, tokens: Movie -> seq<string>): seq<string> {
    Flatten(Map(ms, tokens))
  }

  /** The `userPreferences` the script builds: each genre and director token counted as in the
      engine, only the lead actors counted, and the mean of the minutes read. */
  function ScriptProfile(ms: seq<Movie>): Preferences {
    Preferences(
      Tally(Empty(), TokensOf(ms, GenreTokens)),
      Tally(Empty(), TokensOf(ms, ActorTokens)),
      Tally(Empty(), TokensOf(ms, DirectorTokens)),
      Mean(Durations(ms)),
      |ms|)
  }

  lemma TokensOfStep(ms: seq<Movie>, tokens: Movie -> seq<string>, i: nat)
    requires i < |ms|
    ensures TokensOf(ms[..i + 1], tokens) == TokensOf(ms[..i], tokens) + tokens(ms[i])
  {
    MapStep(ms, tokens, i);
    var ss := Map(ms[..i + 1], tokens);
    assert ss[..|ss| - 1] == Map(ms[..i], tokens);
  }

  lemma {:induction false} TokensOfField(ms: seq<Movie>, tokens: Movie -> seq<string>, f: ListField)
    requires forall m :: tokens(m) == ListTokens(FieldOf(m, f))
    ensures TokensOf(ms, tokens) == AllTokens(ms, f)
  {
    if ms != [] {
      var n := |ms| - 1;
      TokensOfField(ms[..n], tokens, f);
      TokensOfStep(ms, tokens, n);
      assert ms[..n + 1] == ms;
    }
  }

  /** The genre and director counts, the mean duration and the movie count are those of
      `aggregatePreferences`; only the actor counts differ. */
  lemma ScriptProfileAgreesWithEngine(ms: seq<Movie>)
    ensures ScriptProfile(ms).genreCounts == Aggregate(ms).genreCounts
    ensures ScriptProfile(ms).directorCounts == Aggregate(ms).directorCounts
    ensures ScriptProfile(ms).averageDuration == Aggregate(ms).averageDuration
    ensures ScriptProfile(ms).totalMovies == |ms|
  {
    TokensOfField(ms, GenreTokens, Genres);
    TokensOfField(ms, DirectorTokens, Directors);
  }

  lemma {:induction false} ActorTokensFacts(ms: seq<Movie>)
    ensures |TokensOf(ms, ActorTokens)| <= 3 * |ms|
    ensures "N/A" !in TokensOf(ms, ActorTokens)
    ensures forall a :: a in TokensOf(ms, ActorTokens) ==>
      exists i :: 0 <= i < |ms| && a in Take(RawTokens(ms[i].cast), 3)
  {
    if ms != [] {
      var n := |ms| - 1;
      ActorTokensFacts(ms[..n]);
      TokensOfStep(ms, ActorTokens, n);
      assert ms[..n + 1] == ms;
      LeadActorsFacts(ms[n].cast);
      forall a | a in TokensOf(ms, ActorTokens)
        ensures exists i :: 0 <= i < |ms| && a in Take(RawTokens(ms[i].cast), 3)
      {
        if a in TokensOf(ms[..n], ActorTokens) {
          var i :| 0 <= i < n && a in Take(RawTokens(ms[..n][i].cast), 3);
          assert ms[..n][i] == ms[i];
        }
      }
    }
  }

  /** Each actor key counts its occurrences among the first three cast members of each movie;
      no movie adds more than three; 'N/A' is never a key. */
  lemma ScriptActorCounts(ms: seq<Movie>)
    ensures ScriptProfile(ms).actorCounts.keys == Distinct(TokensOf(ms, ActorTokens))
    ensures forall a :: a in ScriptProfile(ms).actorCounts.vals ==>
      ScriptProfile(ms).actorCounts.vals[a] == Occurrences(TokensOf(ms, ActorTokens), a)
      && exists i :: 0 <= i < |ms| && a in Take(RawTokens(ms[i].cast), 3)
    ensures "N/A" !in ScriptProfile(ms).actorCounts.vals
    ensures |TokensOf(ms, ActorTokens)| <= 3 * |ms|
  {
    TallyFromEmpty(TokensOf(ms, ActorTokens));
    ActorTokensFacts(ms);
  }

  /** The `forEach` over the system movies that fills the three count maps and the duration
      accumulators. */
  method AggregateSystemMovies(ms: seq<Movie>) returns (p: Preferences)
    ensures p == ScriptProfile(ms)
  {
    var genres: Dict<int> := Empty();
    var actors: Dict<int> := Empty();
    var directors: Dict<int> := Empty();
    var totalDuration := 0;
    var durationCount := 0;
    for i := 0 to |ms|
      invariant genres == Tally(Empty(), TokensOf(ms[..i], GenreTokens))
      invariant actors == Tally(Empty(), TokensOf(ms[..i], ActorTokens))
      invariant directors == Tally(Empty(), TokensOf(ms[..i], DirectorTokens))
      invariant totalDuration == SumInts(Durations(ms[..i]))
      invariant durationCount == |Durations(ms[..i])|
    {
      genres := CountInto(ms, i, GenreTokens, genres);
      actors := CountInto(ms, i, ActorTokens, actors);
      directors := CountInto(ms, i, DirectorTokens, directors);
      DurationsStep(ms, i);
      var minutes := DurationMinutes(ms[i].duration);
      if minutes.Some? {
        totalDuration := totalDuration + minutes.value;
        durationCount := durationCount + 1;
      }
    }
    assert ms[..|ms|] == ms;
    var average := if durationCount > 0 then totalDuration as real / durationCount as real else 0.0;
    p := Preferences(genres, actors, directors, average, |ms|);
  }

  /** Counts the tokens of movie `i` on top of the counts of the movies before it. */
  method CountInto(ms: seq<Movie>, i: nat, tokens: Movie -> seq<string>, d: Dict<int>) returns (r: Dict<int>)
    requires i < |ms| && d == Tally(Empty(), TokensOf(ms[..i], tokens))
    ensures r == Tally(Empty(), TokensOf(ms[..i + 1], tokens))
  {
    TokensOfStep(ms, tokens, i);
    TallyAppend(Empty(), TokensOf(ms[..i], tokens), tokens(ms[i]));
    r := CountTokens(d, tokens(ms[i]));
  }

  // ---------------------------------------------------------------------------------------------
  // Ranking and distribution

  const RankThreshold := 0.05
  const RankSize := 15

  /** Each compared movie with its score. */
  function ScoredAll(p: Preferences, ms: seq<Movie>): seq<Scored> {
    Map(ms, m => Scored(m, ImprovedScore(p, m)))
  }

  /** The scored movies above 0.05, best first, at most 15. */
  function Recommendations(p: Preferences, ms: seq<Movie>): seq<Scored> {
    TopAbove(ScoredAll(p, ms), Recommend.SimilarityOf, RankThreshold, RankSize)
  }

  /** The ranking is sorted best first and holds at most 15 of the compared movies, each with its
      own score, which is above 0.05; a movie scoring above 0.05 is left out only when 15
      movies scoring at least as much were kept. */
  lemma RecommendationsFacts(p: Preferences, ms: seq<Movie>)
    ensures SortedDesc(Recommendations(p, ms), Recommend.SimilarityOf)
    ensures |Recommendations(p, ms)| <= RankSize
    ensures forall x :: x in Recommendations(p, ms) ==>
      x.movie in ms && x.similarity == ImprovedScore(p, x.movie) && x.similarity > RankThreshold
    ensures forall i :: (0 <= i < |ms| && ImprovedScore(p, ms[i]) > RankThreshold &&
      Scored(ms[i], ImprovedScore(p, ms[i])) !in Recommendations(p, ms)) ==>
      |Recommendations(p, ms)| == RankSize &&
      forall j :: 0 <= j < RankSize ==> Recommendations(p, ms)[j].similarity >= ImprovedScore(p, ms[i])
  {
    var sc := ScoredAll(p, ms);
    MapFacts(ms, m => Scored(m, ImprovedScore(p, m)));
    TopAboveFacts(sc, Recommend.SimilarityOf, RankThreshold, RankSize);
    forall x | x in Recommendations(p, ms) ensures x.movie in ms && x.similarity == ImprovedScore(p, x.movie) {
      var k :| 0 <= k < |sc| && sc[k] == x;
    }
    forall i | 0 <= i < |ms| && ImprovedScore(p, ms[i]) > RankThreshold &&
      Scored(ms[i], ImprovedScore(p, ms[i])) !in Recommendations(p, ms)
      ensures |Recommendations(p, ms)| == RankSize &&
        forall j :: 0 <= j < RankSize ==> Recommendations(p, ms)[j].similarity >= ImprovedScore(p, ms[i])
    {
      assert sc[i] == Scored(ms[i], ImprovedScore(p, ms[i]));
    }
  }

  /** The five ranges of the score distribution, 80-100% first and 0-19% last, each bounded as the
      script writes it. */
  predicate InRange(s: real, k: nat) {
    match k
    case 0 => s >= 0.8
    case 1 => s >= 0.6 && s < 0.8
    case 2 => s >= 0.4 && s < 0.6
    case 3 => s >= 0.2 && s < 0.4
    case 4 => s < 0.2
    case _ => false
  }

  /** `recommendations.filter(r => <range k>).length`. */
  function RangeCount(recs: seq<Scored>, k: nat): nat {
    |Filter(recs, (r: Scored) => InRange(r.similarity, k))|
  }

  /** Every score falls in exactly one range. */
  lemma RangesDisjoint(s: real)
    ensures exists k :: 0 <= k < 5 && InRange(s, k)
    ensures forall k, l :: 0 <= k < l < 5 ==> !(InRange(s, k) && InRange(s, l))
  {
    if s >= 0.8 {
      assert InRange(s, 0);
    } else if s >= 0.6 {
      assert InRange(s, 1);
    } else if s >= 0.4 {
      assert InRange(s, 2);
    } else if s >= 0.2 {
      assert InRange(s, 3);
    } else {
      assert InRange(s, 4);
    }
  }

  /** The five range counts add up to the number of recommendations. */
  lemma {:induction false} RangeCountsPartition(recs: seq<Scored>)
    ensures RangeCount(recs, 0) + RangeCount(recs, 1) + RangeCount(recs, 2)
      + RangeCount(recs, 3) + RangeCount(recs, 4) == |recs|
  {
    if recs != [] {
      RangeCountsPartition(recs[..|recs| - 1]);
      RangesDisjoint(recs[|recs| - 1].similarity);
    }
  }
}
