/** The recommendations test script: a profile taken from one sample movie, the flat
    0.4 / 0.3 / 0.2 / 0.1 scorer with its reasons, the top-10 ranking of the unwatched movies
    and the check that the watched movie is not among them. */
module FlatScorer {
  import opened Base
  import opened JsString
  import opened Seqs
  import opened Dicts
  import opened Catalog
  import opened Aggregation
  import opened ScriptCommon
  import Reasons
  import Recommend

  // ---------------------------------------------------------------------------------------------
  // The profile of the sample movie

  /** `d[t] = 1` for each token in turn. */
  function Mark(d: Dict<int>, toks: seq<string>): Dict<int> {
    if toks == [] then d else Put(Mark(d, toks[..|toks| - 1]), toks[|toks| - 1], 1)
  }

  /** The duration of the sample: its first digit run when the field is truthy and not 'N/A',
      otherwise the initial 0. */
  function SampleDuration(field: string): real {
    match DurationMinutes(field)
    case Some(n) => n as real
    case None => 0.0
  }

  /** The simulated `userPreferences`: every genre and director token and each of the first three
      actors set to 1, the sample's minutes, and one movie. */
  function SampleProfile(sample: Movie): Preferences {
    Preferences(
      Mark(Empty(), ListTokens(sample.genre)),
      Mark(Empty(), LeadActors(sample.cast)),
      Mark(Empty(), ListTokens(sample.director)),
      SampleDuration(sample.duration),
      1)
  }

  /** Marking lists each distinct token once, in first-seen order, with the value 1. */
  lemma {:induction false} MarkFacts(toks: seq<string>)
    ensures Mark(Empty(), toks).keys == Distinct(toks)
    ensures forall k :: k in Mark(Empty(), toks).vals <==> k in toks
    ensures forall k :: k in Mark(Empty(), toks).vals ==> Mark(Empty(), toks).vals[k] == 1
  {
    if toks != [] {
      var init := toks[..|toks| - 1];
      MarkFacts(init);
      DistinctFacts(init);
      assert toks == init + [toks[|toks| - 1]];
    }
  }

  /** Each profile key holds 1 and the keys are exactly the sample's tokens, at most three of them
      actors and none of them 'N/A'; the duration is the sample's first digit run, or 0. */
  lemma SampleProfileFacts(sample: Movie)
    ensures var p := SampleProfile(sample);
      && (forall k :: k in p.genreCounts.vals <==> k in ListTokens(sample.genre))
      && (forall k :: k in p.actorCounts.vals <==> k in LeadActors(sample.cast))
      && (forall k :: k in p.directorCounts.vals <==> k in ListTokens(sample.director))
      && (forall k :: k in p.genreCounts.vals ==> p.genreCounts.vals[k] == 1)
      && (forall k :: k in p.actorCounts.vals ==> p.actorCounts.vals[k] == 1)
      && (forall k :: k in p.directorCounts.vals ==> p.directorCounts.vals[k] == 1)
      && |p.actorCounts.keys| <= 3
      && "N/A" !in p.genreCounts.vals && "N/A" !in p.actorCounts.vals && "N/A" !in p.directorCounts.vals
      && (DurationMinutes(sample.duration).Some? ==> p.averageDuration == DurationMinutes(sample.duration).value as real)
      && (DurationMinutes(sample.duration).None? ==> p.averageDuration == 0.0)
      && p.totalMovies == 1
  {
    MarkFacts(ListTokens(sample.genre));
    MarkFacts(LeadActors(sample.cast));
    MarkFacts(ListTokens(sample.director));
    LeadActorsFacts(sample.cast);
    DistinctFacts(LeadActors(sample.cast));
  }

  /** The `forEach` that sets `d[t] = 1` for each token. */
  method MarkAll(d: Dict<int>, toks: seq<string>) returns (r: Dict<int>)
    ensures r == Mark(d, toks)
  {
    r := d;
    for i := 0 to |toks|
      invariant r == Mark(d, toks[..i])
    {
      assert toks[..i + 1][..i] == toks[..i];
      r := Put(r, toks[i], 1);
    }
    assert toks[..|toks|] == toks;
  }

  /** The preference extraction from the sample movie. */
  method ExtractProfile(sample: Movie) returns (p: Preferences)
    ensures p == SampleProfile(sample)
  {
    var genres: Dict<int> := Empty();
    var actors: Dict<int> := Empty();
    var directors: Dict<int> := Empty();
    var averageDuration := 0.0;
    genres := MarkAll(genres, ListTokens(sample.genre));
    actors := MarkAll(actors, LeadActors(sample.cast));
    directors := MarkAll(directors, ListTokens(sample.director));
    if sample.duration != "" && sample.duration != "N/A" {
      var minutes := FirstDigitRun(sample.duration);
      if minutes.Some? {
        averageDuration := minutes.value as real;
      }
    }
    p := Preferences(genres, actors, directors, averageDuration, 1);
  }

  // ---------------------------------------------------------------------------------------------
  // The flat scorer

  const GenresPrefix := "Genres: "
  const ActorsPrefix := "Actors: "
  const DirectorPrefix := "Director: "
  const SimilarDuration := "Similar duration"

  /** The duration clause: a positive profile duration, a truthy duration with a digit run, and a
      difference of strictly less than 30 minutes. */
  function DurationClause(avg: real, field: string): seq<string> {
    if Reasons.DurationClause(avg, field) != [] then [SimilarDuration] else []
  }

  function GenreClause(p: Preferences, m: Movie): seq<string> {
    Reasons.ListClause(GenresPrefix, m.genre, p.genreCounts)
  }

  function ActorClause(p: Preferences, m: Movie): seq<string> {
    Reasons.ListClause(ActorsPrefix, m.cast, p.actorCounts)
  }

  function DirectorClause(p: Preferences, m: Movie): seq<string> {
    Reasons.ListClause(DirectorPrefix, m.director, p.directorCounts)
  }

  /** The reasons pushed for movie `m`, in order. */
  function FlatClauses(p: Preferences, m: Movie): seq<string> {
    []
    + GenreClause(p, m)
    + ActorClause(p, m)
    + DirectorClause(p, m)
    + DurationClause(p.averageDuration, m.duration)
  }

  /** `w` when the clause is present. */
  function Credit(clause: seq<string>, w: real): real {
    if clause != [] then w else 0.0
  }

  /** The similarity of `m`: the sum of the weights of the clauses present. */
  function FlatScore(p: Preferences, m: Movie): real {
    Credit(GenreClause(p, m), 0.4)
    + Credit(ActorClause(p, m), 0.3)
    + Credit(DirectorClause(p, m), 0.2)
    + Credit(DurationClause(p.averageDuration, m.duration), 0.1)
  }

  /** `reasons.join(" • ")`. */
  function FlatReason(p: Preferences, m: Movie): string {
    Join(FlatClauses(p, m), Reasons.Bullet)
  }

  /** The `map` callback: `similarity` and `reasons` grow block by block. */
  method ScoreCandidate(p: Preferences, m: Movie) returns (similarity: real, reason: string)
    ensures similarity == FlatScore(p, m)
    ensures reason == FlatReason(p, m)
  {
    similarity := 0.0;
    var reasons: seq<string> := [];
    similarity, reasons := AddListClause(similarity, reasons, 0.4, GenresPrefix, m.genre, p.genreCounts);
    similarity, reasons := AddListClause(similarity, reasons, 0.3, ActorsPrefix, m.cast, p.actorCounts);
    similarity, reasons := AddListClause(similarity, reasons, 0.2, DirectorPrefix, m.director, p.directorCounts);
    if p.averageDuration > 0.0 && m.duration != "" {
      var minutes := FirstDigitRun(m.duration);
      if minutes.Some? {
        var durationDiff := AbsReal(p.averageDuration - minutes.value as real);
        if durationDiff < 30.0 {
          similarity := similarity + 0.1;
          reasons := reasons + [SimilarDuration];
        }
      }
    }
    assert reasons == FlatClauses(p, m);
    reason := Join(reasons, Reasons.Bullet);
  }

  /** One of the genre, actor and director blocks: when a piece of the truthy field is a truthy
      profile key, `w` is added and the matching pieces are pushed as a clause. */
  method AddListClause(similarity: real, reasons: seq<string>, w: real, prefix: string, field: string, d: Dict<int>)
    returns (similarity': real, reasons': seq<string>)
    ensures similarity' == similarity + Credit(Reasons.ListClause(prefix, field, d), w)
    ensures reasons' == reasons + Reasons.ListClause(prefix, field, d)
  {
    similarity', reasons' := similarity, reasons;
    if field != "" {
      var matching := Reasons.Matches(field, d);
      if |matching| > 0 {
        similarity' := similarity' + w;
        reasons' := reasons' + [prefix + Join(matching, ", ")];
      }
    } else {
      Reasons.MatchesOfEmpty(field, d);
    }
  }

  // ---------------------------------------------------------------------------------------------
  // Properties of the scorer

  /** A list clause is present exactly when a piece of the field is a counted profile key; the
      duration clause exactly when the profile duration is positive, the field has a digit run
      and the difference is strictly below 30. */
  lemma ClausesFire(p: Preferences, m: Movie)
    ensures GenreClause(p, m) != [] <==>
      exists i :: 0 <= i < |RawTokens(m.genre)| && Reasons.Counted(p.genreCounts, RawTokens(m.genre)[i])
    ensures ActorClause(p, m) != [] <==>
      exists i :: 0 <= i < |RawTokens(m.cast)| && Reasons.Counted(p.actorCounts, RawTokens(m.cast)[i])
    ensures DirectorClause(p, m) != [] <==>
      exists i :: 0 <= i < |RawTokens(m.director)| && Reasons.Counted(p.directorCounts, RawTokens(m.director)[i])
    ensures DurationClause(p.averageDuration, m.duration) != [] <==>
      p.averageDuration > 0.0 && FirstDigitRun(m.duration).Some? &&
      AbsReal(p.averageDuration - FirstDigitRun(m.duration).value as real) < 30.0
  {
    Reasons.ListClauseFacts(GenresPrefix, m.genre, p.genreCounts);
    Reasons.ListClauseFacts(ActorsPrefix, m.cast, p.actorCounts);
    Reasons.ListClauseFacts(DirectorPrefix, m.director, p.directorCounts);
    Reasons.DurationClauseFacts(p.averageDuration, m.duration);
  }

  /** The similarity lies in [0, 1]; it is 0 exactly when no clause is present, and above the
      0.1 threshold exactly when a genre, actor or director clause is present (a duration match
      alone gives 0.1, which does not pass). */
  lemma FlatScoreFacts(p: Preferences, m: Movie)
    ensures 0.0 <= FlatScore(p, m) <= 1.0
    ensures FlatScore(p, m) == 0.0 <==> FlatClauses(p, m) == []
    ensures FlatScore(p, m) > 0.1 <==>
      GenreClause(p, m) != [] || ActorClause(p, m) != [] || DirectorClause(p, m) != []
  {
  }

  /** The reason is empty exactly when no clause is present; otherwise it starts with the first
      clause present, which is the genre clause when there is one. */
  lemma FlatReasonFacts(p: Preferences, m: Movie)
    ensures FlatReason(p, m) == "" <==> FlatClauses(p, m) == []
    ensures |FlatClauses(p, m)| <= 4
    ensures GenreClause(p, m) != [] ==> StartsWith(FlatReason(p, m), GenresPrefix)
  {
    var cs := FlatClauses(p, m);
    Reasons.ListClauseFacts(GenresPrefix, m.genre, p.genreCounts);
    Reasons.ListClauseFacts(ActorsPrefix, m.cast, p.actorCounts);
    Reasons.ListClauseFacts(DirectorPrefix, m.director, p.directorCounts);
    if cs != [] {
      assert cs[0] != "" by {
        var g := GenreClause(p, m);
        var a := ActorClause(p, m);
        var d := DirectorClause(p, m);
        if g != [] {
          assert cs[0] == g[0];
        } else if a != [] {
          assert cs[0] == a[0];
        } else if d != [] {
          assert cs[0] == d[0];
        } else {
          assert cs[0] == SimilarDuration;
        }
      }
      Reasons.JoinFirst(cs, Reasons.Bullet);
      if GenreClause(p, m) != [] {
        JoinStartsWithFirst(cs, Reasons.Bullet);
        assert StartsWith(cs[0], GenresPrefix);
      }
    }
  }

  /** A join starts with its first part. */
  lemma JoinStartsWithFirst(parts: seq<string>, sep: string)
    requires parts != []
    ensures Join(parts, sep)[..|parts[0]|] == parts[0]
  {
    if |parts| > 1 {
      assert Join(parts, sep) == parts[0] + (sep + Join(parts[1..], sep));
    }
  }

  // ---------------------------------------------------------------------------------------------
  // Ranking and the exclusion check

  const RankThreshold := 0.1
  const RankSize := 10

  /** The movies whose title key differs from the sample's. */
  function UnwatchedMovies(sample: Movie, all: seq<Movie>): seq<Movie> {
    Filter(all, (m: Movie) => TitleKey(m.title) != TitleKey(sample.title))
  }

  function Scored(p: Preferences, m: Movie): Recommend.Recommendation {
    Recommend.Recommendation(m, FlatScore(p, m), FlatReason(p, m))
  }

  function SimilarityOf(r: Recommend.Recommendation): real {
    r.similarity
  }

  /** The scored unwatched movies above 0.1, best first, at most 10. */
  function TopRecommendations(sample: Movie, all: seq<Movie>): seq<Recommend.Recommendation> {
    var p := SampleProfile(sample);
    TopAbove(Map(UnwatchedMovies(sample, all), m => Scored(p, m)), SimilarityOf, RankThreshold, RankSize)
  }

  /** `recommendations.find(rec => <title key equals the sample's>)`. */
  function FindWatched(recs: seq<Recommend.Recommendation>, sample: Movie): Option<nat> {
    FirstIndex(recs, (r: Recommend.Recommendation) => TitleKey(r.movie.title) == TitleKey(sample.title))
  }

  /** What `TopAboveFacts` says about a ranking of mapped movies, in terms of the movies. */
  lemma {:induction false} RankedMovies<T>(ms: seq<T>, f: T -> Recommend.Recommendation)
    ensures forall r :: r in TopAbove(Map(ms, f), SimilarityOf, RankThreshold, RankSize) ==>
      exists k :: 0 <= k < |ms| && r == f(ms[k])
    ensures forall k :: (0 <= k < |ms| && SimilarityOf(f(ms[k])) > RankThreshold &&
      f(ms[k]) !in TopAbove(Map(ms, f), SimilarityOf, RankThreshold, RankSize)) ==>
      |TopAbove(Map(ms, f), SimilarityOf, RankThreshold, RankSize)| == RankSize &&
      forall j :: 0 <= j < RankSize ==>
        TopAbove(Map(ms, f), SimilarityOf, RankThreshold, RankSize)[j].similarity >= SimilarityOf(f(ms[k]))
  {
    var sc := Map(ms, f);
    MapFacts(ms, f);
    TopAboveFacts(sc, SimilarityOf, RankThreshold, RankSize);
    forall r | r in TopAbove(sc, SimilarityOf, RankThreshold, RankSize)
      ensures exists k :: 0 <= k < |ms| && r == f(ms[k])
    {
      var k :| 0 <= k < |sc| && sc[k] == r;
    }
    forall k | 0 <= k < |ms| && SimilarityOf(f(ms[k])) > RankThreshold &&
      f(ms[k]) !in TopAbove(sc, SimilarityOf, RankThreshold, RankSize)
      ensures |TopAbove(sc, SimilarityOf, RankThreshold, RankSize)| == RankSize &&
        forall j :: 0 <= j < RankSize ==>
          TopAbove(sc, SimilarityOf, RankThreshold, RankSize)[j].similarity >= SimilarityOf(f(ms[k]))
    {
      assert sc[k] == f(ms[k]);
    }
  }

  /** The unwatched movies are the compared movies whose title key differs from the sample's. */
  lemma UnwatchedFacts(sample: Movie, all: seq<Movie>)
    ensures forall m :: m in UnwatchedMovies(sample, all) <==> m in all && TitleKey(m.title) != TitleKey(sample.title)
  {
    FilterFacts(all, (m: Movie) => TitleKey(m.title) != TitleKey(sample.title));
  }

  /** The ranking is sorted best first and holds at most 10 entries; each is a compared movie
      whose title key differs from the sample's, with its own similarity, which is above 0.1, and
      its own reason. */
  lemma TopRecommendationsFacts(sample: Movie, all: seq<Movie>)
    ensures SortedDesc(TopRecommendations(sample, all), SimilarityOf)
    ensures |TopRecommendations(sample, all)| <= RankSize
    ensures forall r :: r in TopRecommendations(sample, all) ==>
      && r.movie in all
      && TitleKey(r.movie.title) != TitleKey(sample.title)
      && r.similarity == FlatScore(SampleProfile(sample), r.movie) > RankThreshold
      && r.reason == FlatReason(SampleProfile(sample), r.movie)
  {
    var p := SampleProfile(sample);
    var un := UnwatchedMovies(sample, all);
    var f := m => Scored(p, m);
    UnwatchedFacts(sample, all);
    TopAboveFacts(Map(un, f), SimilarityOf, RankThreshold, RankSize);
    RankedMovies(un, f);
    forall r | r in TopRecommendations(sample, all)
      ensures r.movie in all && TitleKey(r.movie.title) != TitleKey(sample.title)
        && r.similarity == FlatScore(p, r.movie) && r.reason == FlatReason(p, r.movie)
    {
      var k :| 0 <= k < |un| && r == f(un[k]);
      assert un[k] in un;
    }
  }

  /** An unwatched movie scoring above 0.1 is left out only when 10 entries scoring at least as
      much were kept. */
  lemma TopRecommendationsComplete(sample: Movie, all: seq<Movie>, i: nat)
    requires i < |all| && TitleKey(all[i].title) != TitleKey(sample.title)
    requires FlatScore(SampleProfile(sample), all[i]) > RankThreshold
    requires Scored(SampleProfile(sample), all[i]) !in TopRecommendations(sample, all)
    ensures |TopRecommendations(sample, all)| == RankSize
    ensures forall j :: 0 <= j < RankSize ==>
      TopRecommendations(sample, all)[j].similarity >= FlatScore(SampleProfile(sample), all[i])
  {
    var p := SampleProfile(sample);
    var un := UnwatchedMovies(sample, all);
    var f := m => Scored(p, m);
    UnwatchedFacts(sample, all);
    RankedMovies(un, f);
    assert all[i] in un;
    var k :| 0 <= k < |un| && un[k] == all[i];
    assert f(un[k]) == Scored(p, all[i]);
  }

  /** The script's check always succeeds: no recommendation has the sample's title key. */
  lemma WatchedMovieExcluded(sample: Movie, all: seq<Movie>)
    ensures FindWatched(TopRecommendations(sample, all), sample) == None
  {
    var recs := TopRecommendations(sample, all);
    TopRecommendationsFacts(sample, all);
    FirstIndexFacts(recs, (r: Recommend.Recommendation) => TitleKey(r.movie.title) == TitleKey(sample.title));
  }
}
