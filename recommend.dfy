/** `generateRecommendations`: the watched titles and the catalog are fetched, a new user gets
    popular movies, anyone else gets the unwatched catalog scored, filtered, sorted, topped up
    with genre-based movies, diversified and explained. */
module Recommend {
  import opened Base
  import opened JsString
  import opened Seqs
  import opened Dicts
  import opened Catalog
  import opened Aggregation
  import opened FeatureVectors
  import opened Similarity
  import opened Diversity
  import opened Ranking
  import opened Reasons

  /** `{ movie, similarity, reason }`. */
  datatype Recommendation = Recommendation(movie: Movie, similarity: real, reason: string)

  /** The promise either resolves to the recommendations or rejects with an `Error`. */
  datatype Outcome = Recommended(recs: seq<Recommendation>) | Thrown(message: string)

  const WatchedError := "Failed to fetch user's viewing history"
  const CatalogError := "Failed to fetch movies for recommendations"
  const PopularError := "Failed to fetch popular movies"
  const GenreError := "Failed to fetch genre-based recommendations"
  const PopularReason := "Popular movies for new users"
  const PopularSimilarity := 0.5
  const BackfillSimilarity := 0.3
  /** Candidates must score strictly above this. */
  const Threshold := 0.05
  /** Profiles built from fewer records than this get popular movies. */
  const ColdStartBelow := 3
  /** The number of top genres the genre-based query asks for. */
  const TopGenreCount := 3

  /** `new Set(titles.map(t => t.toLowerCase().trim()))`. */
  function TitleKeys(titles: seq<string>): set<string> {
    Image(titles, TitleKey)
  }

  predicate Unwatched(watched: set<string>, m: Movie) {
    TitleKey(m.title) !in watched
  }

  /** `ms.filter(m => !watched.has(m.title.toLowerCase().trim()))`. */
  function UnwatchedOnly(watched: set<string>, ms: seq<Movie>): seq<Movie> {
    Filter(ms, m => Unwatched(watched, m))
  }

  /** `getPopularMovies(limit)`, the rows given in the order the shuffle left them. */
  function PopularMovies(popular: Fetch<seq<Movie>>, limit: nat): Fetch<seq<Movie>> {
    match popular
    case FetchError(_) => FetchError(PopularError)
    case Fetched(rows) => Fetched(Take(rows, limit))
  }

  /** `getGenreBasedRecommendations(topGenres, count)`: no query at all without genres; the
      query's rows are given, shuffled, for the genres asked about. */
  function GenreBased(topGenres: seq<string>, count: nat, genreQuery: seq<string> -> Fetch<seq<Movie>>)
    : Fetch<seq<Movie>>
  {
    if topGenres == [] then Fetched([])
    else
      match genreQuery(topGenres)
      case FetchError(_) => FetchError(GenreError)
      case Fetched(rows) => Fetched(Take(rows, count))
  }

  /** The cold-start answer: each movie with the default similarity and reason. */
  function AsPopular(ms: seq<Movie>): seq<Recommendation> {
    Map(ms, PopularEntry)
  }

  function PopularEntry(m: Movie): Recommendation {
    Recommendation(m, PopularSimilarity, PopularReason)
  }

  /** Each movie paired with `calculateSimilarity(userVector, movieToFeatureVector(movie))`. */
  function Scores(user: FeatureVector, ms: seq<Movie>): seq<Scored>
    requires ProfileReady(user)
  {
    ScoredBy(ms, m => Score(user, MovieVector(m)))
  }

  /** Each movie paired with its score. */
  function ScoredBy(ms: seq<Movie>, score: Movie -> real): seq<Scored> {
    Map(ms, m => Scored(m, score(m)))
  }

  function SimilarityOf(r: Scored): real {
    r.similarity
  }

  predicate AboveThreshold(r: Scored) {
    r.similarity > Threshold
  }

  /** The scored candidates above the threshold, best first, ties in catalog order. */
  function Ranked(user: FeatureVector, ms: seq<Movie>): seq<Scored>
    requires ProfileReady(user)
  {
    Passing(Scores(user, ms))
  }

  /** `.filter(rec => rec.similarity > 0.05).sort((a, b) => b.similarity - a.similarity)`. */
  function Passing(scored: seq<Scored>): seq<Scored> {
    SortDesc(Filter(scored, AboveThreshold), SimilarityOf)
  }

  /** The ranked candidates of a profile. */
  function Candidates(p: Preferences, unwatched: seq<Movie>): seq<Scored>
    requires WellFormed(p)
  {
    ProfileReadyOfWellFormed(p);
    Ranked(ProfileVector(p), unwatched)
  }

  /** The similarity `calculateSimilarity` gives movie `m` against the profile vector of `p`. */
  function ProfileScore(p: Preferences, m: Movie): real
    requires WellFormed(p)
  {
    ProfileReadyOfWellFormed(p);
    Score(ProfileVector(p), MovieVector(m))
  }

  /** `recs.find(r => r.movie.id === id)` finds something. */
  predicate HasId(recs: seq<Scored>, id: Option<int>) {
    exists i :: 0 <= i < |recs| && recs[i].movie.id == id
  }

  /** `pool.forEach(...)`: each movie whose id is not in the list yet is appended with the
      backfill similarity; the list grows as it goes, so the pool's own repeats are dropped too. */
  function Backfill(recs: seq<Scored>, pool: seq<Movie>): seq<Scored> {
    if pool == [] then recs
    else
      var r := Backfill(recs, pool[..|pool| - 1]);
      var m := pool[|pool| - 1];
      if HasId(r, m.id) then r else r + [Scored(m, BackfillSimilarity)]
  }

  /** The final `map`: each entry with its reason. */
  function Explain(p: Preferences, ds: seq<Scored>): seq<Recommendation> {
    Map(ds, d => Explained(p, d))
  }

  function Explained(p: Preferences, d: Scored): Recommendation {
    Recommendation(d.movie, d.similarity, Reason(p, d.movie))
  }

  /** The genre-based top-up: asked for only when fewer than `limit` candidates passed, for the
      three genres with the highest counts and as many movies as are missing. */
  function TopUp(p: Preferences, recs: seq<Scored>, limit: nat, genreQuery: seq<string> -> Fetch<seq<Movie>>)
    : Fetch<seq<Movie>>
  {
    if |recs| < limit then GenreBased(TopKeys(p.genreCounts, TopGenreCount), limit - |recs|, genreQuery)
    else Fetched([])
  }

  /** The path of a user with fewer than three records. */
  function ColdStart(watched: set<string>, popular: Fetch<seq<Movie>>, limit: nat): Outcome {
    match PopularMovies(popular, limit)
    case FetchError(e) => Thrown(e)
    case Fetched(ms) => Recommended(AsPopular(UnwatchedOnly(watched, ms)))
  }

  /** The path of a user with three records or more. */
  function Warm(p: Preferences, watched: set<string>, unwatched: seq<Movie>, limit: nat,
    genreQuery: seq<string> -> Fetch<seq<Movie>>): Outcome
    requires WellFormed(p)
  {
    var recs := Candidates(p, unwatched);
    match TopUp(p, recs, limit, genreQuery)
    case FetchError(e) => Thrown(e)
    case Fetched(ms) => Recommended(Explain(p, Diversify(Backfill(recs, UnwatchedOnly(watched, ms)), limit, SourceTags)))
  }

  /** What `generateRecommendations(userId, preferences, limit)` resolves or rejects with, given
      what the store returns for the user's titles, for the other users' records, for the popular
      query and for the genre query. */
  function Generate(p: Preferences, limit: nat, watchedRows: Fetch<seq<string>>, catalog: Fetch<seq<Movie>>,
    popular: Fetch<seq<Movie>>, genreQuery: seq<string> -> Fetch<seq<Movie>>): Outcome
    requires WellFormed(p)
  {
    match watchedRows
    case FetchError(_) => Thrown(WatchedError)
    case Fetched(titles) =>
      var watched := TitleKeys(titles);
      match catalog
      case FetchError(_) => Thrown(CatalogError)
      case Fetched(all) =>
        if p.totalMovies < ColdStartBelow then ColdStart(watched, popular, limit)
        else Warm(p, watched, UnwatchedOnly(watched, all), limit, genreQuery)
  }

  // ---------------------------------------------------------------------------------------
  // The imperative body

  /** The scoring `map`: one `calculateSimilarity` call per movie. */
  method ScoreMovies(user: FeatureVector, ms: seq<Movie>) returns (scored: seq<Scored>)
    requires ProfileReady(user)
    ensures scored == Scores(user, ms)
  {
    scored := [];
    var i := 0;
    while i < |ms|
      invariant 0 <= i <= |ms|
      invariant scored == Scores(user, ms[..i])
    {
      var movieVector := MovieVector(ms[i]);
      var similarity := CalculateSimilarity(user, movieVector);
      ScoredByStep(ms, m => Score(user, MovieVector(m)), i);
      scored := scored + [Scored(ms[i], similarity)];
      i := i + 1;
    }
    assert ms[..|ms|] == ms;
  }

  /** The `forEach` that pushes each pool movie whose id is new. */
  method BackfillFrom(recs: seq<Scored>, pool: seq<Movie>) returns (out: seq<Scored>)
    ensures out == Backfill(recs, pool)
  {
    out := recs;
    var i := 0;
    while i < |pool|
      invariant 0 <= i <= |pool|
      invariant out == Backfill(recs, pool[..i])
    {
      var movie := pool[i];
      assert pool[..i + 1][..i] == pool[..i];
      if !HasId(out, movie.id) {
        out := out + [Scored(movie, BackfillSimilarity)];
      }
      i := i + 1;
    }
    assert pool[..|pool|] == pool;
  }

  /** The final `map`, one reason callback per entry. */
  method ExplainAll(p: Preferences, ds: seq<Scored>) returns (out: seq<Recommendation>)
    ensures out == Explain(p, ds)
  {
    out := [];
    var i := 0;
    while i < |ds|
      invariant 0 <= i <= |ds|
      invariant out == Explain(p, ds[..i])
    {
      var reason := BuildReason(p, ds[i].movie);
      MapStep(ds, d => Explained(p, d), i);
      out := out + [Recommendation(ds[i].movie, ds[i].similarity, reason)];
      i := i + 1;
    }
    assert ds[..|ds|] == ds;
  }

  /** `generateRecommendations`, step by step. */
  method GenerateRecommendations(p: Preferences, limit: nat, watchedRows: Fetch<seq<string>>,
    catalog: Fetch<seq<Movie>>, popular: Fetch<seq<Movie>>, genreQuery: seq<string> -> Fetch<seq<Movie>>)
    returns (out: Outcome)
    requires WellFormed(p)
    ensures out == Generate(p, limit, watchedRows, catalog, popular, genreQuery)
  {
    if watchedRows.FetchError? {
      return Thrown(WatchedError);
    }
    var userWatchedTitles := TitleKeys(watchedRows.rows);
    if catalog.FetchError? {
      return Thrown(CatalogError);
    }
    var unwatchedMovies := UnwatchedOnly(userWatchedTitles, catalog.rows);
    if p.totalMovies < ColdStartBelow {
      var popularMovies := PopularMovies(popular, limit);
      if popularMovies.FetchError? {
        return Thrown(popularMovies.message);
      }
      var unwatchedPopularMovies := UnwatchedOnly(userWatchedTitles, popularMovies.rows);
      return Recommended(AsPopular(unwatchedPopularMovies));
    }
    ProfileReadyOfWellFormed(p);
    var userVector := ProfileVector(p);
    var scored := ScoreMovies(userVector, unwatchedMovies);
    var recommendations := Passing(scored);
    assert recommendations == Candidates(p, unwatchedMovies);
    var genreRecommendations := TopUp(p, recommendations, limit, genreQuery);
    if genreRecommendations.FetchError? {
      return Thrown(genreRecommendations.message);
    }
    var unwatchedGenreRecommendations := UnwatchedOnly(userWatchedTitles, genreRecommendations.rows);
    recommendations := BackfillFrom(recommendations, unwatchedGenreRecommendations);
    var diverseRecommendations := AddDiversity(recommendations, limit, SourceTags);
    var explained := ExplainAll(p, diverseRecommendations);
    return Recommended(explained);
  }

  // ---------------------------------------------------------------------------------------
  // Properties

  /** The profile vector of an aggregate has positive weights in every dimension. */
  lemma ProfileReadyOfWellFormed(p: Preferences)
    requires WellFormed(p)
    ensures ProfileReady(ProfileVector(p))
  {
    ProfileWeightsPositive(p.genreCounts);
    ProfileWeightsPositive(p.actorCounts);
    ProfileWeightsPositive(p.directorCounts);
  }

  lemma ProfileWeightsPositive(d: Dict<int>)
    requires GoodCounts(d)
    ensures PositiveWeights(Normalize(d))
  {
    NormalizeWeights(d);
    if d.keys != [] {
      var total := CountTotal(d);
      forall k | k in Normalize(d).vals ensures Normalize(d).vals[k] > 0.0 {
        RatioBounds(d.vals[k] as real, total as real);
      }
    }
  }

  /** A watched title key is the key of one of the titles the store returned. */
  lemma TitleKeysMembership(titles: seq<string>, k: string)
    ensures k in TitleKeys(titles) <==> exists i :: 0 <= i < |titles| && TitleKey(titles[i]) == k
  {
    ImageMembership(titles, TitleKey, k);
  }

  /** The unwatched filter keeps, in order, exactly the movies whose title key is not watched. */
  lemma UnwatchedOnlyFacts(watched: set<string>, ms: seq<Movie>)
    ensures forall i :: 0 <= i < |UnwatchedOnly(watched, ms)| ==>
      UnwatchedOnly(watched, ms)[i] in ms && Unwatched(watched, UnwatchedOnly(watched, ms)[i])
    ensures forall i :: 0 <= i < |ms| && Unwatched(watched, ms[i]) ==> ms[i] in UnwatchedOnly(watched, ms)
    ensures IsSubseq(UnwatchedOnly(watched, ms), ms)
  {
    FilterFacts(ms, m => Unwatched(watched, m));
  }

  /** The cold-start list pairs each movie, in order, with the default similarity and reason. */
  lemma AsPopularFacts(ms: seq<Movie>)
    ensures |AsPopular(ms)| == |ms|
    ensures forall i :: 0 <= i < |ms| ==> AsPopular(ms)[i] == Recommendation(ms[i], PopularSimilarity, PopularReason)
  {
    MapFacts(ms, PopularEntry);
  }

  /** Scoring keeps the movies in order and pairs each with its score. */
  lemma ScoredByFacts(ms: seq<Movie>, score: Movie -> real)
    ensures |ScoredBy(ms, score)| == |ms|
    ensures forall i :: 0 <= i < |ms| ==> ScoredBy(ms, score)[i] == Scored(ms[i], score(ms[i]))
  {
    MapFacts(ms, m => Scored(m, score(m)));
  }

  lemma ScoredByStep(ms: seq<Movie>, score: Movie -> real, i: nat)
    requires i < |ms|
    ensures ScoredBy(ms[..i + 1], score) == ScoredBy(ms[..i], score) + [Scored(ms[i], score(ms[i]))]
  {
    MapStep(ms, m => Scored(m, score(m)), i);
  }

  /** Filtering and sorting keeps exactly the entries above the threshold, best first. */
  lemma PassingFacts(scored: seq<Scored>)
    ensures SortedDesc(Passing(scored), SimilarityOf)
    ensures |Passing(scored)| <= |scored|
    ensures forall x :: x in Passing(scored) ==> x in scored && x.similarity > Threshold
    ensures forall i :: 0 <= i < |scored| && scored[i].similarity > Threshold ==> scored[i] in Passing(scored)
  {
    var f := Filter(scored, AboveThreshold);
    FilterFacts(scored, AboveThreshold);
    SortDescFacts(f, SimilarityOf);
    var r := Passing(scored);
    forall x | x in r ensures x in scored && x.similarity > Threshold {
      assert x in multiset(r);
      assert x in f;
    }
    forall i | 0 <= i < |scored| && scored[i].similarity > Threshold ensures scored[i] in r {
      assert scored[i] in f;
      assert scored[i] in multiset(f);
    }
  }

  /** The ranked list is sorted best first; each entry is a movie of the list with its own score,
      which is above the threshold; and every movie scoring above the threshold is in it. */
  lemma RankedByFacts(ms: seq<Movie>, score: Movie -> real)
    ensures SortedDesc(Passing(ScoredBy(ms, score)), SimilarityOf)
    ensures |Passing(ScoredBy(ms, score))| <= |ms|
    ensures forall x :: x in Passing(ScoredBy(ms, score)) ==>
      x.movie in ms && x.similarity == score(x.movie) && x.similarity > Threshold
    ensures forall i :: 0 <= i < |ms| && score(ms[i]) > Threshold ==>
      Scored(ms[i], score(ms[i])) in Passing(ScoredBy(ms, score))
  {
    var sc := ScoredBy(ms, score);
    ScoredByFacts(ms, score);
    PassingFacts(sc);
    forall x | x in Passing(sc) ensures x.movie in ms && x.similarity == score(x.movie) {
      var k :| 0 <= k < |sc| && sc[k] == x;
    }
    forall i | 0 <= i < |ms| && score(ms[i]) > Threshold ensures Scored(ms[i], score(ms[i])) in Passing(sc) {
      assert sc[i] == Scored(ms[i], score(ms[i]));
    }
  }

  /** `RankedByFacts` for the profile's own scores. */
  lemma RankedFacts(user: FeatureVector, ms: seq<Movie>)
    requires ProfileReady(user)
    ensures SortedDesc(Ranked(user, ms), SimilarityOf)
    ensures |Ranked(user, ms)| <= |ms|
    ensures forall x :: x in Ranked(user, ms) ==>
      x.movie in ms && x.similarity == Score(user, MovieVector(x.movie)) && x.similarity > Threshold
    ensures forall i :: 0 <= i < |ms| && Score(user, MovieVector(ms[i])) > Threshold ==>
      Scored(ms[i], Score(user, MovieVector(ms[i]))) in Ranked(user, ms)
  {
    RankedByFacts(ms, m => Score(user, MovieVector(m)));
  }

  /** The top-up keeps the list as its prefix and appends, with the backfill similarity, pool
      movies whose id is not already present; afterwards every pool id is present. */
  lemma BackfillFacts(recs: seq<Scored>, pool: seq<Movie>)
    ensures |recs| <= |Backfill(recs, pool)| <= |recs| + |pool|
    ensures Backfill(recs, pool)[..|recs|] == recs
    ensures forall i :: |recs| <= i < |Backfill(recs, pool)| ==>
      && Backfill(recs, pool)[i].movie in pool
      && Backfill(recs, pool)[i].similarity == BackfillSimilarity
      && !HasId(Backfill(recs, pool)[..i], Backfill(recs, pool)[i].movie.id)
    ensures forall j :: 0 <= j < |pool| ==> HasId(Backfill(recs, pool), pool[j].id)
  {
    BackfillPrefix(recs, pool);
    BackfillAppended(recs, pool);
    BackfillCovers(recs, pool);
  }

  lemma {:induction false} BackfillPrefix(recs: seq<Scored>, pool: seq<Movie>)
    ensures |recs| <= |Backfill(recs, pool)| <= |recs| + |pool|
    ensures Backfill(recs, pool)[..|recs|] == recs
  {
    if pool != [] {
      var init := pool[..|pool| - 1];
      var m := pool[|pool| - 1];
      var r := Backfill(recs, init);
      BackfillPrefix(recs, init);
      if !HasId(r, m.id) {
        var r' := r + [Scored(m, BackfillSimilarity)];
        assert r'[..|recs|] == r[..|recs|];
      }
    }
  }

  lemma {:induction false} BackfillAppended(recs: seq<Scored>, pool: seq<Movie>)
    ensures forall i :: |recs| <= i < |Backfill(recs, pool)| ==>
      && Backfill(recs, pool)[i].movie in pool
      && Backfill(recs, pool)[i].similarity == BackfillSimilarity
      && !HasId(Backfill(recs, pool)[..i], Backfill(recs, pool)[i].movie.id)
  {
    if pool != [] {
      var init := pool[..|pool| - 1];
      var m := pool[|pool| - 1];
      var r := Backfill(recs, init);
      BackfillAppended(recs, init);
      if !HasId(r, m.id) {
        var r' := r + [Scored(m, BackfillSimilarity)];
        assert r'[..|r|] == r;
        forall i | |recs| <= i < |r'|
          ensures r'[i].movie in pool && r'[i].similarity == BackfillSimilarity && !HasId(r'[..i], r'[i].movie.id)
        {
          if i < |r| {
            assert r'[..i] == r[..i];
            assert r[i].movie in init;
          }
        }
      } else {
        forall i | |recs| <= i < |r| ensures r[i].movie in pool {
          assert r[i].movie in init;
        }
      }
    }
  }

  lemma {:induction false} BackfillCovers(recs: seq<Scored>, pool: seq<Movie>)
    ensures forall j :: 0 <= j < |pool| ==> HasId(Backfill(recs, pool), pool[j].id)
  {
    if pool != [] {
      var init := pool[..|pool| - 1];
      var m := pool[|pool| - 1];
      var r := Backfill(recs, init);
      BackfillCovers(recs, init);
      if !HasId(r, m.id) {
        var r' := r + [Scored(m, BackfillSimilarity)];
        forall j | 0 <= j < |pool| ensures HasId(r', pool[j].id) {
          if j < |init| {
            assert HasId(r, init[j].id);
            var k :| 0 <= k < |r| && r[k].movie.id == init[j].id;
            assert r'[k] == r[k];
          } else {
            assert r'[|r|].movie.id == pool[j].id;
          }
        }
      } else {
        forall j | 0 <= j < |pool| ensures HasId(r, pool[j].id) {
          if j < |init| {
            assert HasId(r, init[j].id);
          }
        }
      }
    }
  }

  /** Each entry keeps its movie and similarity and gains the reason for its movie. */
  lemma ExplainFacts(p: Preferences, ds: seq<Scored>)
    ensures |Explain(p, ds)| == |ds|
    ensures forall i :: 0 <= i < |ds| ==>
      Explain(p, ds)[i] == Recommendation(ds[i].movie, ds[i].similarity, Reason(p, ds[i].movie))
  {
    MapFacts(ds, d => Explained(p, d));
  }

  /** Whatever the target, the diversity pass only keeps candidates of its input, at most the
      target or the top candidate alone, always the top candidate first, and at least half the
      target when the input reaches it. */
  lemma DiversifyKeeps(recs: seq<Scored>, target: int, tags: Scored -> Tags)
    ensures forall x :: x in Diversify(recs, target, tags) ==> x in recs
    ensures |Diversify(recs, target, tags)| <= Max(target, 1)
    ensures recs != [] ==> Diversify(recs, target, tags) != [] && Diversify(recs, target, tags)[0] == recs[0]
    ensures |recs| >= target >= 1 ==> 2 * |Diversify(recs, target, tags)| >= target
  {
    DiversifyProperties(recs, target, tags);
    if |recs| > target {
      if target >= 1 {
        IsSubseqElements(Diversify(recs, target, tags), recs);
      } else if recs != [] {
        DiversifyNonPositiveTarget(recs, target, tags);
      }
    }
  }

  /** The cold-start path answers with the unwatched movies among the first `limit` popular
      rows, all of them, in order, each with similarity 0.5 and the new-user reason. */
  lemma ColdStartShape(watched: set<string>, rows: seq<Movie>, limit: nat)
    ensures ColdStart(watched, Fetched(rows), limit).Recommended?
    ensures var rs := ColdStart(watched, Fetched(rows), limit).recs;
      && |rs| <= limit
      && (forall i :: 0 <= i < |rs| ==>
        && rs[i].similarity == PopularSimilarity && rs[i].reason == PopularReason
        && Unwatched(watched, rs[i].movie) && rs[i].movie in Take(rows, limit))
      && (forall j :: 0 <= j < |rows| && j < limit && Unwatched(watched, rows[j]) ==>
        exists i :: 0 <= i < |rs| && rs[i].movie == rows[j])
  {
    var t := Take(rows, limit);
    var u := UnwatchedOnly(watched, t);
    UnwatchedOnlyFacts(watched, t);
    AsPopularFacts(u);
    var rs := ColdStart(watched, Fetched(rows), limit).recs;
    assert rs == AsPopular(u);
    forall j | 0 <= j < |rows| && j < limit && Unwatched(watched, rows[j])
      ensures exists i :: 0 <= i < |rs| && rs[i].movie == rows[j]
    {
      assert t[j] == rows[j];
      assert rows[j] in u;
      var k :| 0 <= k < |u| && u[k] == rows[j];
      assert rs[k].movie == rows[j];
    }
  }

  predicate AllUnwatched(watched: set<string>, ds: seq<Scored>) {
    forall i :: 0 <= i < |ds| ==> Unwatched(watched, ds[i].movie)
  }

  /** The candidates of an unwatched list are unwatched. */
  lemma CandidatesUnwatched(p: Preferences, watched: set<string>, all: seq<Movie>)
    requires WellFormed(p)
    ensures AllUnwatched(watched, Candidates(p, UnwatchedOnly(watched, all)))
  {
    var unwatched := UnwatchedOnly(watched, all);
    UnwatchedOnlyFacts(watched, all);
    ProfileReadyOfWellFormed(p);
    var recs := Candidates(p, unwatched);
    RankedByFacts(unwatched, m => Score(ProfileVector(p), MovieVector(m)));
    forall i | 0 <= i < |recs| ensures Unwatched(watched, recs[i].movie) {
      assert recs[i] in recs;
    }
  }

  /** Topping up an unwatched list from an unwatched pool keeps it unwatched. */
  lemma BackfillUnwatched(watched: set<string>, recs: seq<Scored>, ms: seq<Movie>)
    requires AllUnwatched(watched, recs)
    ensures AllUnwatched(watched, Backfill(recs, UnwatchedOnly(watched, ms)))
  {
    var pool := UnwatchedOnly(watched, ms);
    UnwatchedOnlyFacts(watched, ms);
    var b := Backfill(recs, pool);
    BackfillFacts(recs, pool);
    forall i | 0 <= i < |b| ensures Unwatched(watched, b[i].movie) {
      if i < |recs| {
        assert b[i] == b[..|recs|][i] == recs[i];
      } else {
        var k :| 0 <= k < |pool| && pool[k] == b[i].movie;
      }
    }
  }

  /** Diversifying and explaining an unwatched list keeps every movie unwatched. */
  lemma ExplainDiverseUnwatched(p: Preferences, watched: set<string>, b: seq<Scored>, limit: nat)
    requires AllUnwatched(watched, b)
    ensures var rs := Explain(p, Diversify(b, limit, SourceTags));
      forall i :: 0 <= i < |rs| ==> Unwatched(watched, rs[i].movie)
  {
    var d := Diversify(b, limit, SourceTags);
    DiversifyKeeps(b, limit, SourceTags);
    ExplainFacts(p, d);
    forall i | 0 <= i < |d| ensures Unwatched(watched, d[i].movie) {
      assert d[i] in b;
    }
  }

  /** Every recommendation of the warm path is unwatched. */
  lemma WarmUnwatched(p: Preferences, watched: set<string>, all: seq<Movie>, limit: nat,
    genreQuery: seq<string> -> Fetch<seq<Movie>>)
    requires WellFormed(p)
    requires Warm(p, watched, UnwatchedOnly(watched, all), limit, genreQuery).Recommended?
    ensures var rs := Warm(p, watched, UnwatchedOnly(watched, all), limit, genreQuery).recs;
      forall i :: 0 <= i < |rs| ==> Unwatched(watched, rs[i].movie)
  {
    var recs := Candidates(p, UnwatchedOnly(watched, all));
    CandidatesUnwatched(p, watched, all);
    var ms := TopUp(p, recs, limit, genreQuery).rows;
    BackfillUnwatched(watched, recs, ms);
    ExplainDiverseUnwatched(p, watched, Backfill(recs, UnwatchedOnly(watched, ms)), limit);
  }

  /** No recommendation, on either path, has a title that matches a watched title once both are
      lower-cased and trimmed. */
  lemma NeverRecommendsWatched(p: Preferences, limit: nat, titles: seq<string>, catalog: Fetch<seq<Movie>>,
    popular: Fetch<seq<Movie>>, genreQuery: seq<string> -> Fetch<seq<Movie>>)
    requires WellFormed(p)
    requires Generate(p, limit, Fetched(titles), catalog, popular, genreQuery).Recommended?
    ensures var rs := Generate(p, limit, Fetched(titles), catalog, popular, genreQuery).recs;
      forall i, j :: 0 <= i < |rs| && 0 <= j < |titles| ==> TitleKey(rs[i].movie.title) != TitleKey(titles[j])
  {
    var watched := TitleKeys(titles);
    var rs := Generate(p, limit, Fetched(titles), catalog, popular, genreQuery).recs;
    if p.totalMovies < ColdStartBelow {
      ColdStartShape(watched, popular.rows, limit);
    } else {
      WarmUnwatched(p, watched, catalog.rows, limit, genreQuery);
    }
    forall i, j | 0 <= i < |rs| && 0 <= j < |titles| ensures TitleKey(rs[i].movie.title) != TitleKey(titles[j]) {
      TitleKeysMembership(titles, TitleKey(titles[j]));
    }
  }

  /** An entry of the warm path is either a candidate scored above the threshold or a top-up
      movie with the backfill similarity (which is itself above the threshold). */
  ghost predicate Justified(p: Preferences, unwatched: seq<Movie>, e: Scored)
    requires WellFormed(p)
  {
    && e.similarity > Threshold
    && (e.similarity == BackfillSimilarity || (e.movie in unwatched && e.similarity == ProfileScore(p, e.movie)))
  }

  /** The candidates are justified. */
  lemma CandidatesJustified(p: Preferences, unwatched: seq<Movie>)
    requires WellFormed(p)
    ensures forall i :: 0 <= i < |Candidates(p, unwatched)| ==> Justified(p, unwatched, Candidates(p, unwatched)[i])
  {
    ProfileReadyOfWellFormed(p);
    var recs := Candidates(p, unwatched);
    RankedByFacts(unwatched, m => Score(ProfileVector(p), MovieVector(m)));
    forall i | 0 <= i < |recs| ensures Justified(p, unwatched, recs[i]) {
      assert recs[i] in recs;
    }
  }

  /** The candidates come best first. */
  lemma CandidatesSorted(p: Preferences, unwatched: seq<Movie>)
    requires WellFormed(p)
    ensures SortedDesc(Candidates(p, unwatched), SimilarityOf)
  {
    ProfileReadyOfWellFormed(p);
    RankedByFacts(unwatched, m => Score(ProfileVector(p), MovieVector(m)));
  }

  /** Topping up justified entries leaves only justified entries. */
  lemma BackfillJustified(p: Preferences, unwatched: seq<Movie>, recs: seq<Scored>, pool: seq<Movie>)
    requires WellFormed(p)
    requires forall i :: 0 <= i < |recs| ==> Justified(p, unwatched, recs[i])
    ensures forall i :: 0 <= i < |Backfill(recs, pool)| ==> Justified(p, unwatched, Backfill(recs, pool)[i])
  {
    var b := Backfill(recs, pool);
    BackfillFacts(recs, pool);
    forall i | 0 <= i < |b| ensures Justified(p, unwatched, b[i]) {
      if i < |recs| {
        assert b[i] == b[..|recs|][i] == recs[i];
      }
    }
  }

  /** Diversifying and explaining a list keeps at most `limit` entries (one when `limit` is 0),
      each an entry of the list with the reason for its movie, starting with the list's first, and
      at least half of `limit` when the list reaches it. */
  lemma FinishFacts(p: Preferences, b: seq<Scored>, limit: nat)
    ensures var rs := Explain(p, Diversify(b, limit, SourceTags));
      && |rs| <= Max(limit, 1)
      && (forall i :: 0 <= i < |rs| ==> rs[i].reason == Reason(p, rs[i].movie))
      && (b != [] ==> rs != [] && rs[0].movie == b[0].movie && rs[0].similarity == b[0].similarity)
      && (|b| >= limit >= 1 ==> 2 * |rs| >= limit)
  {
    var d := Diversify(b, limit, SourceTags);
    DiversifyKeeps(b, limit, SourceTags);
    var rs := Explain(p, d);
    ExplainFacts(p, d);
  }

  /** A property every entry of the list has, every recommendation keeps. */
  lemma FinishKeeps(p: Preferences, b: seq<Scored>, limit: nat, good: Scored -> bool)
    requires forall i :: 0 <= i < |b| ==> good(b[i])
    ensures var rs := Explain(p, Diversify(b, limit, SourceTags));
      forall i :: 0 <= i < |rs| ==> good(Scored(rs[i].movie, rs[i].similarity))
  {
    var d := Diversify(b, limit, SourceTags);
    DiversifyKeeps(b, limit, SourceTags);
    var rs := Explain(p, d);
    ExplainFacts(p, d);
    forall i | 0 <= i < |rs| ensures good(Scored(rs[i].movie, rs[i].similarity)) {
      assert Scored(rs[i].movie, rs[i].similarity) == d[i];
      assert d[i] in b;
    }
  }

  /** The warm path answers with at most `limit` entries (one when `limit` is 0), and with at
      least `limit` candidates it keeps at least half of `limit`. */
  lemma WarmCount(p: Preferences, watched: set<string>, unwatched: seq<Movie>, limit: nat,
    genreQuery: seq<string> -> Fetch<seq<Movie>>)
    requires WellFormed(p)
    requires Warm(p, watched, unwatched, limit, genreQuery).Recommended?
    ensures |Warm(p, watched, unwatched, limit, genreQuery).recs| <= Max(limit, 1)
    ensures |Candidates(p, unwatched)| >= limit >= 1 ==> 2 * |Warm(p, watched, unwatched, limit, genreQuery).recs| >= limit
  {
    var recs := Candidates(p, unwatched);
    var ms := TopUp(p, recs, limit, genreQuery).rows;
    var pool := UnwatchedOnly(watched, ms);
    var b := Backfill(recs, pool);
    BackfillFacts(recs, pool);
    FinishFacts(p, b, limit);
    if |recs| >= limit {
      assert pool == [];
    }
  }

  /** Every warm recommendation carries the reason for its movie and is a candidate with its own
      score above the threshold or a top-up movie with the backfill similarity. */
  lemma WarmEntries(p: Preferences, watched: set<string>, unwatched: seq<Movie>, limit: nat,
    genreQuery: seq<string> -> Fetch<seq<Movie>>)
    requires WellFormed(p)
    requires Warm(p, watched, unwatched, limit, genreQuery).Recommended?
    ensures var rs := Warm(p, watched, unwatched, limit, genreQuery).recs;
      forall i :: 0 <= i < |rs| ==>
        rs[i].reason == Reason(p, rs[i].movie) && Justified(p, unwatched, Scored(rs[i].movie, rs[i].similarity))
  {
    var recs := Candidates(p, unwatched);
    CandidatesJustified(p, unwatched);
    var ms := TopUp(p, recs, limit, genreQuery).rows;
    var pool := UnwatchedOnly(watched, ms);
    var b := Backfill(recs, pool);
    BackfillJustified(p, unwatched, recs, pool);
    FinishFacts(p, b, limit);
    FinishKeeps(p, b, limit, e => Justified(p, unwatched, e));
  }

  /** The first candidate, which is the best (`CandidatesSorted`), is the first recommendation. */
  lemma WarmBestFirst(p: Preferences, watched: set<string>, unwatched: seq<Movie>, limit: nat,
    genreQuery: seq<string> -> Fetch<seq<Movie>>)
    requires WellFormed(p)
    requires Warm(p, watched, unwatched, limit, genreQuery).Recommended?
    requires Candidates(p, unwatched) != []
    ensures var rs := Warm(p, watched, unwatched, limit, genreQuery).recs;
      var recs := Candidates(p, unwatched);
      && rs != [] && rs[0].movie == recs[0].movie && rs[0].similarity == recs[0].similarity
  {
    var recs := Candidates(p, unwatched);
    var ms := TopUp(p, recs, limit, genreQuery).rows;
    var pool := UnwatchedOnly(watched, ms);
    var b := Backfill(recs, pool);
    BackfillFacts(recs, pool);
    FinishFacts(p, b, limit);
    assert b[0] == b[..|recs|][0] == recs[0];
  }

  /** Which store failure the promise rejects with: the history query, then the catalog query,
      then the popular query for a new user, or the genre query when a user with history has
      fewer than `limit` candidates and at least one counted genre; nothing else rejects. */
  lemma GenerateErrors(p: Preferences, limit: nat, watchedRows: Fetch<seq<string>>, catalog: Fetch<seq<Movie>>,
    popular: Fetch<seq<Movie>>, genreQuery: seq<string> -> Fetch<seq<Movie>>)
    requires WellFormed(p)
    ensures watchedRows.FetchError? ==> Generate(p, limit, watchedRows, catalog, popular, genreQuery) == Thrown(WatchedError)
    ensures watchedRows.Fetched? && catalog.FetchError? ==>
      Generate(p, limit, watchedRows, catalog, popular, genreQuery) == Thrown(CatalogError)
    ensures watchedRows.Fetched? && catalog.Fetched? && p.totalMovies < ColdStartBelow ==>
      && (Generate(p, limit, watchedRows, catalog, popular, genreQuery).Thrown? <==> popular.FetchError?)
      && (popular.FetchError? ==> Generate(p, limit, watchedRows, catalog, popular, genreQuery) == Thrown(PopularError))
    ensures watchedRows.Fetched? && catalog.Fetched? && p.totalMovies >= ColdStartBelow ==>
      var recs := Candidates(p, UnwatchedOnly(TitleKeys(watchedRows.rows), catalog.rows));
      var top := TopKeys(p.genreCounts, TopGenreCount);
      && (Generate(p, limit, watchedRows, catalog, popular, genreQuery).Thrown? <==>
          |recs| < limit && top != [] && genreQuery(top).FetchError?)
      && (Generate(p, limit, watchedRows, catalog, popular, genreQuery).Thrown? ==>
          Generate(p, limit, watchedRows, catalog, popular, genreQuery) == Thrown(GenreError))
  {
  }

  /** A user with fewer than three records gets exactly the unwatched movies among the first
      `limit` popular rows, in order, each with similarity 0.5 and the new-user reason. */
  lemma GenerateColdStart(p: Preferences, limit: nat, titles: seq<string>, all: seq<Movie>, rows: seq<Movie>,
    genreQuery: seq<string> -> Fetch<seq<Movie>>)
    requires WellFormed(p) && p.totalMovies < ColdStartBelow
    ensures Generate(p, limit, Fetched(titles), Fetched(all), Fetched(rows), genreQuery).Recommended?
    ensures var rs := Generate(p, limit, Fetched(titles), Fetched(all), Fetched(rows), genreQuery).recs;
      var watched := TitleKeys(titles);
      && |rs| <= limit
      && (forall i :: 0 <= i < |rs| ==>
        && rs[i].similarity == PopularSimilarity && rs[i].reason == PopularReason
        && Unwatched(watched, rs[i].movie) && rs[i].movie in Take(rows, limit))
      && (forall j :: 0 <= j < |rows| && j < limit && Unwatched(watched, rows[j]) ==>
        exists i :: 0 <= i < |rs| && rs[i].movie == rows[j])
  {
    ColdStartShape(TitleKeys(titles), rows, limit);
  }

  /** A user with three records or more gets at most `limit` recommendations (one when `limit`
      is 0), at least half of `limit` when there are `limit` candidates, each with the reason for
      its movie, each an unwatched catalog movie with its score above the threshold or a top-up
      movie with similarity 0.3, and the best candidate first. */
  lemma GenerateWarm(p: Preferences, limit: nat, titles: seq<string>, all: seq<Movie>,
    popular: Fetch<seq<Movie>>, genreQuery: seq<string> -> Fetch<seq<Movie>>)
    requires WellFormed(p) && p.totalMovies >= ColdStartBelow
    requires Generate(p, limit, Fetched(titles), Fetched(all), popular, genreQuery).Recommended?
    ensures var rs := Generate(p, limit, Fetched(titles), Fetched(all), popular, genreQuery).recs;
      var unwatched := UnwatchedOnly(TitleKeys(titles), all);
      var recs := Candidates(p, unwatched);
      && |rs| <= Max(limit, 1)
      && (|recs| >= limit >= 1 ==> 2 * |rs| >= limit)
      && (forall i :: 0 <= i < |rs| ==>
        rs[i].reason == Reason(p, rs[i].movie) && Justified(p, unwatched, Scored(rs[i].movie, rs[i].similarity)))
      && (recs != [] ==> rs != [] && rs[0].movie == recs[0].movie && rs[0].similarity == recs[0].similarity)
  {
    var watched := TitleKeys(titles);
    var unwatched := UnwatchedOnly(watched, all);
    WarmCount(p, watched, unwatched, limit, genreQuery);
    WarmEntries(p, watched, unwatched, limit, genreQuery);
    if Candidates(p, unwatched) != [] {
      WarmBestFirst(p, watched, unwatched, limit, genreQuery);
    }
  }

  /** The genre query is not consulted for a new user, nor when there are already `limit`
      candidates, nor when no genre has been counted. */
  lemma GenreQueryOnlyWhenShort(p: Preferences, limit: nat, watchedRows: Fetch<seq<string>>, catalog: Fetch<seq<Movie>>,
    popular: Fetch<seq<Movie>>, q1: seq<string> -> Fetch<seq<Movie>>, q2: seq<string> -> Fetch<seq<Movie>>)
    requires WellFormed(p) && watchedRows.Fetched? && catalog.Fetched?
    requires || p.totalMovies < ColdStartBelow
             || |Candidates(p, UnwatchedOnly(TitleKeys(watchedRows.rows), catalog.rows))| >= limit
             || TopKeys(p.genreCounts, TopGenreCount) == []
    ensures Generate(p, limit, watchedRows, catalog, popular, q1) == Generate(p, limit, watchedRows, catalog, popular, q2)
  {
  }

  /** The popular query matters only to a new user. */
  lemma PopularQueryOnlyForColdStart(p: Preferences, limit: nat, watchedRows: Fetch<seq<string>>,
    catalog: Fetch<seq<Movie>>, pop1: Fetch<seq<Movie>>, pop2: Fetch<seq<Movie>>, genreQuery: seq<string> -> Fetch<seq<Movie>>)
    requires WellFormed(p) && p.totalMovies >= ColdStartBelow
    ensures Generate(p, limit, watchedRows, catalog, pop1, genreQuery) == Generate(p, limit, watchedRows, catalog, pop2, genreQuery)
  {
  }
}
