/** `calculateSimilarity` and its four sub-scores: how well a candidate's feature vector matches
    the user's. */
module Similarity {
  import opened Base
  import opened Seqs
  import opened Dicts
  import opened FeatureVectors

  /** The weights of a profile vector: a well-formed map of positive weights. */
  ghost predicate PositiveWeights(u: Dict<real>) {
    Valid(u) && forall k :: k in u.vals ==> u.vals[k] > 0.0
  }

  ghost predicate ProfileReady(user: FeatureVector) {
    PositiveWeights(user.genres) && PositiveWeights(user.actors) && PositiveWeights(user.directors)
  }

  /** `userKeys.filter(k => movieKeys.includes(k))`. */
  function Matching(u: Dict<real>, v: Dict<real>): seq<string> {
    Filter(u.keys, k => k in v.keys)
  }

  /** The weights of the keys `ks` that are in `sel`, summed in key order. */
  function SumIn(ks: seq<string>, m: map<string, real>, sel: seq<string>): real
    requires forall i :: 0 <= i < |ks| ==> ks[i] in m
  {
    if ks == [] then 0.0
    else SumIn(ks[..|ks| - 1], m, sel) + (if ks[|ks| - 1] in sel then m[ks[|ks| - 1]] else 0.0)
  }

  /** The share of the user's weight that falls on matching keys. */
  function MatchRatio(u: Dict<real>, matching: seq<string>): real
    requires PositiveWeights(u) && u.keys != []
  {
    SumPositive(u.keys, u.vals);
    SumIn(u.keys, u.vals, matching) / SumOver(u.keys, u.vals)
  }

  /** `|matching| / max(|userKeys|, |movieKeys|)`, capped at `cap`. */
  function OverlapBonus(u: Dict<real>, v: Dict<real>, matching: seq<string>, cap: real): real
    requires u.keys != []
  {
    MinReal(|matching| as real / Max(|u.keys|, |v.keys|) as real, cap)
  }

  /** `calculateGenreSimilarity`. */
  function GenreScore(u: Dict<real>, v: Dict<real>): real
    requires PositiveWeights(u)
  {
    var matching := Matching(u, v);
    if |u.keys| == 0 || |v.keys| == 0 || |matching| == 0 then 0.0
    else MatchRatio(u, matching) + OverlapBonus(u, v, matching, 0.3)
  }

  /** `calculateActorSimilarity`. */
  function ActorScore(u: Dict<real>, v: Dict<real>): real
    requires PositiveWeights(u)
  {
    var matching := Matching(u, v);
    if |u.keys| == 0 || |v.keys| == 0 || |matching| == 0 then 0.0
    else MatchRatio(u, matching) + (if |matching| >= 2 then 0.2 else 0.0) + OverlapBonus(u, v, matching, 0.2)
  }

  /** `calculateDirectorSimilarity`. */
  function DirectorScore(u: Dict<real>, v: Dict<real>): real
    requires PositiveWeights(u)
  {
    var matching := Matching(u, v);
    if |u.keys| == 0 || |v.keys| == 0 || |matching| == 0 then 0.0
    else MatchRatio(u, matching) + 0.3
  }

  /** The step of `calculateDurationSimilarity` for a difference of `diff` minutes. */
  function DurationStep(diff: real): real {
    if diff <= 15.0 then 1.0
    else if diff <= 30.0 then 0.8
    else if diff <= 45.0 then 0.6
    else if diff <= 60.0 then 0.4
    else if diff <= 90.0 then 0.2
    else 0.0
  }

  /** `calculateDurationSimilarity`. */
  function DurationScore(userDuration: real, movieDuration: real): real {
    if userDuration == 0.0 || movieDuration == 0.0 then 0.0
    else DurationStep(AbsReal(userDuration - movieDuration))
  }

  /** The value `calculateSimilarity` returns, with its denominator (always 1.0) divided out. */
  function Score(user: FeatureVector, movie: FeatureVector): real
    requires ProfileReady(user)
  {
    0.35 * GenreScore(user.genres, movie.genres)
    + 0.35 * ActorScore(user.actors, movie.actors)
    + 0.20 * DirectorScore(user.directors, movie.directors)
    + 0.10 * DurationScore(user.duration, movie.duration)
  }

  lemma {:induction false} SumPositive(ks: seq<string>, m: map<string, real>)
    requires forall i :: 0 <= i < |ks| ==> ks[i] in m && m[ks[i]] > 0.0
    ensures ks != [] ==> SumOver(ks, m) > 0.0
    ensures ks == [] ==> SumOver(ks, m) == 0.0
  {
    if ks != [] {
      SumPositive(ks[..|ks| - 1], m);
    }
  }

  /** The matched weight is positive when some matching key is listed, and never more than the
      whole weight. */
  lemma {:induction false} SumInBounds(ks: seq<string>, m: map<string, real>, sel: seq<string>)
    requires forall i :: 0 <= i < |ks| ==> ks[i] in m && m[ks[i]] > 0.0
    ensures 0.0 <= SumIn(ks, m, sel) <= SumOver(ks, m)
    ensures (exists i :: 0 <= i < |ks| && ks[i] in sel) ==> SumIn(ks, m, sel) > 0.0
  {
    if ks != [] {
      var init := ks[..|ks| - 1];
      SumInBounds(init, m, sel);
      if exists i :: 0 <= i < |ks| && ks[i] in sel {
        var i :| 0 <= i < |ks| && ks[i] in sel;
        if i < |ks| - 1 {
          assert init[i] == ks[i];
        }
      }
    }
  }

  /** With at least one matching key, the matched share of the user's weight lies in (0, 1]. */
  lemma MatchRatioBounds(u: Dict<real>, v: Dict<real>)
    requires PositiveWeights(u) && u.keys != [] && Matching(u, v) != []
    ensures 0.0 < MatchRatio(u, Matching(u, v)) <= 1.0
  {
    var matching := Matching(u, v);
    MatchingFacts(u, v);
    assert matching[0] in u.keys;
    var i :| 0 <= i < |u.keys| && u.keys[i] == matching[0];
    SumInBounds(u.keys, u.vals, matching);
    SumPositive(u.keys, u.vals);
    RatioBounds(SumIn(u.keys, u.vals, matching), SumOver(u.keys, u.vals));
  }

  lemma RatioBounds(a: real, b: real)
    requires 0.0 <= a && 0.0 < b
    ensures 0.0 <= a / b
    ensures a > 0.0 ==> a / b > 0.0
    ensures a <= b ==> a / b <= 1.0
  {
    assert a / b * b == a;
  }

  /** Some user key is also a candidate key. */
  predicate Shares(u: Dict<real>, v: Dict<real>) {
    exists i :: 0 <= i < |u.keys| && u.keys[i] in v.keys
  }

  /** The matching keys are user keys that are candidate keys, and every such user key matches. */
  lemma MatchingFacts(u: Dict<real>, v: Dict<real>)
    ensures forall i :: 0 <= i < |Matching(u, v)| ==> Matching(u, v)[i] in u.keys && Matching(u, v)[i] in v.keys
    ensures forall i :: 0 <= i < |u.keys| && u.keys[i] in v.keys ==> u.keys[i] in Matching(u, v)
  {
    FilterFacts(u.keys, k => k in v.keys);
  }

  lemma MatchingNonEmpty(u: Dict<real>, v: Dict<real>)
    ensures Matching(u, v) != [] <==> Shares(u, v)
  {
    MatchingFacts(u, v);
    var m := Matching(u, v);
    if m != [] {
      assert m[0] in u.keys;
      var i :| 0 <= i < |u.keys| && u.keys[i] == m[0];
      assert u.keys[i] in v.keys;
    }
    if Shares(u, v) {
      var i :| 0 <= i < |u.keys| && u.keys[i] in v.keys;
      assert u.keys[i] in m;
    }
  }

  /** The overlap bonus lies in [0, cap], and is positive when some key matches. */
  lemma OverlapBonusBounds(u: Dict<real>, v: Dict<real>, matching: seq<string>, cap: real)
    requires u.keys != [] && cap > 0.0
    ensures 0.0 <= OverlapBonus(u, v, matching, cap) <= cap
    ensures matching != [] ==> 0.0 < OverlapBonus(u, v, matching, cap)
  {
    RatioBounds(|matching| as real, Max(|u.keys|, |v.keys|) as real);
  }

  /** The genre sub-score is 0 when either map is empty or no key is shared; otherwise it is the
      matched share of the user's weight, in (0, 1], plus an overlap bonus in (0, 0.3]. */
  lemma GenreScoreBounds(u: Dict<real>, v: Dict<real>)
    requires PositiveWeights(u)
    ensures u.keys == [] || v.keys == [] || !Shares(u, v) ==> GenreScore(u, v) == 0.0
    ensures u.keys != [] && v.keys != [] && Shares(u, v) ==>
      && 0.0 < MatchRatio(u, Matching(u, v)) <= 1.0
      && 0.0 < GenreScore(u, v) - MatchRatio(u, Matching(u, v)) <= 0.3
    ensures 0.0 <= GenreScore(u, v) <= 1.3
  {
    MatchingNonEmpty(u, v);
    var m := Matching(u, v);
    if u.keys != [] && v.keys != [] && m != [] {
      var r := MatchRatio(u, m);
      var b := OverlapBonus(u, v, m, 0.3);
      MatchRatioBounds(u, v);
      OverlapBonusBounds(u, v, m, 0.3);
      assert GenreScore(u, v) == r + b;
    }
  }

  /** The actor sub-score is 0 when either map is empty or no key is shared; otherwise it is the
      matched share, in (0, 1], plus 0.2 when at least two actors match, plus an overlap bonus
      in (0, 0.2]. */
  lemma ActorScoreBounds(u: Dict<real>, v: Dict<real>)
    requires PositiveWeights(u)
    ensures u.keys == [] || v.keys == [] || !Shares(u, v) ==> ActorScore(u, v) == 0.0
    ensures u.keys != [] && v.keys != [] && Shares(u, v) ==>
      && 0.0 < MatchRatio(u, Matching(u, v)) <= 1.0
      && var extra := ActorScore(u, v) - MatchRatio(u, Matching(u, v));
         (if |Matching(u, v)| >= 2 then 0.2 < extra <= 0.4 else 0.0 < extra <= 0.2)
    ensures 0.0 <= ActorScore(u, v) <= 1.4
  {
    MatchingNonEmpty(u, v);
    var m := Matching(u, v);
    if u.keys != [] && v.keys != [] && m != [] {
      var r := MatchRatio(u, m);
      var b := OverlapBonus(u, v, m, 0.2);
      MatchRatioBounds(u, v);
      OverlapBonusBounds(u, v, m, 0.2);
      assert ActorScore(u, v) == r + (if |m| >= 2 then 0.2 else 0.0) + b;
    }
  }

  /** The director sub-score is 0 when either map is empty or no key is shared; otherwise it is
      the matched share, in (0, 1], plus a flat 0.3. */
  lemma DirectorScoreBounds(u: Dict<real>, v: Dict<real>)
    requires PositiveWeights(u)
    ensures u.keys == [] || v.keys == [] || !Shares(u, v) ==> DirectorScore(u, v) == 0.0
    ensures u.keys != [] && v.keys != [] && Shares(u, v) ==>
      && 0.0 < MatchRatio(u, Matching(u, v)) <= 1.0
      && DirectorScore(u, v) == MatchRatio(u, Matching(u, v)) + 0.3
    ensures 0.0 <= DirectorScore(u, v) <= 1.3
  {
    MatchingNonEmpty(u, v);
    if u.keys != [] && v.keys != [] && Matching(u, v) != [] {
      MatchRatioBounds(u, v);
    }
  }

  /** The duration sub-score is 0 when either duration is 0; otherwise it depends only on the
      distance between the two, symmetrically, never increases as they move apart, is 1.0 within
      15 minutes and 0 beyond 90. */
  lemma DurationScoreProperties(a: real, b: real, c: real, d: real)
    ensures a == 0.0 || b == 0.0 ==> DurationScore(a, b) == 0.0
    ensures DurationScore(a, b) == DurationScore(b, a)
    ensures 0.0 <= DurationScore(a, b) <= 1.0
    ensures a != 0.0 && b != 0.0 && c != 0.0 && d != 0.0 && AbsReal(a - b) <= AbsReal(c - d) ==>
      DurationScore(a, b) >= DurationScore(c, d)
    ensures a != 0.0 && b != 0.0 && AbsReal(a - b) <= 15.0 ==> DurationScore(a, b) == 1.0
    ensures AbsReal(a - b) > 90.0 ==> DurationScore(a, b) == 0.0
  {
  }

  /** Because the weights 0.35, 0.35, 0.20 and 0.10 add up to 1, the score lies in [0, 1.305]
      and is never clamped to 1. */
  lemma ScoreBounds(user: FeatureVector, movie: FeatureVector)
    requires ProfileReady(user)
    ensures 0.0 <= Score(user, movie) <= 1.305
  {
    GenreScoreBounds(user.genres, movie.genres);
    ActorScoreBounds(user.actors, movie.actors);
    DirectorScoreBounds(user.directors, movie.directors);
    DurationScoreProperties(user.duration, movie.duration, 0.0, 0.0);
  }

  /** A one-genre, two-actor, one-director, 120-minute profile with its normalised weights. */
  function ExampleProfile(): FeatureVector {
    FeatureVector(
      Dict(["Drama"], map["Drama" := 1.0]),
      Dict(["A", "B"], map["A" := 0.5, "B" := 0.5]),
      Dict(["D"], map["D" := 1.0]),
      120.0)
  }

  /** A candidate sharing that profile's genre, both actors (billed first and second), its
      director and its duration. */
  function ExampleCandidate(): FeatureVector {
    FeatureVector(
      Dict(["Drama"], map["Drama" := 1.0]),
      Dict(["A", "B"], map["A" := 1.0, "B" := 0.8]),
      Dict(["D"], map["D" := 1.0]),
      120.0)
  }

  lemma ExampleSingleKey(u: Dict<real>, k: string)
    requires u == Dict([k], map[k := 1.0])
    ensures PositiveWeights(u)
    ensures GenreScore(u, u) == 1.3 && DirectorScore(u, u) == 1.3
  {
    assert [k][..0] == [];
    assert Matching(u, u) == [k];
    assert SumOver(u.keys, u.vals) == 1.0;
    assert SumIn(u.keys, u.vals, [k]) == 1.0;
  }

  lemma ExampleActors()
    ensures PositiveWeights(ExampleProfile().actors)
    ensures ActorScore(ExampleProfile().actors, ExampleCandidate().actors) == 1.4
  {
    var ua := ExampleProfile().actors;
    var ma := ExampleCandidate().actors;
    assert ["A", "B"][..1] == ["A"];
    assert ["A"][..0] == [];
    assert Matching(ua, ma) == ["A", "B"];
    assert SumOver(ua.keys, ua.vals) == 1.0;
    assert SumIn(ua.keys, ua.vals, ["A", "B"]) == 1.0;
  }

  /** A candidate that matches a one-genre, two-actor, one-director, 120-minute profile on every
      dimension scores 1.305, above 1. */
  lemma ScoreCanExceedOne()
    ensures ProfileReady(ExampleProfile())
    ensures Score(ExampleProfile(), ExampleCandidate()) == 1.305
  {
    ExampleSingleKey(ExampleProfile().genres, "Drama");
    ExampleSingleKey(ExampleProfile().directors, "D");
    ExampleActors();
    assert ExampleCandidate().genres == ExampleProfile().genres;
    assert ExampleCandidate().directors == ExampleProfile().directors;
  }

  /** The loop of each sub-score: the user's whole weight and the weight of its matching keys. */
  method WeightTotals(u: Dict<real>, matching: seq<string>) returns (total: real, matched: real)
    requires PositiveWeights(u)
    ensures total == SumOver(u.keys, u.vals)
    ensures matched == SumIn(u.keys, u.vals, matching)
  {
    total := 0.0;
    matched := 0.0;
    for i := 0 to |u.keys|
      invariant total == SumOver(u.keys[..i], u.vals)
      invariant matched == SumIn(u.keys[..i], u.vals, matching)
    {
      var key := u.keys[i];
      assert u.keys[..i + 1][..i] == u.keys[..i];
      var weight := u.vals[key];
      total := total + weight;
      if key in matching {
        matched := matched + weight;
      }
    }
    assert u.keys[..|u.keys|] == u.keys;
  }

  method GenreSimilarity(u: Dict<real>, v: Dict<real>) returns (s: real)
    requires PositiveWeights(u)
    ensures s == GenreScore(u, v)
  {
    if |u.keys| == 0 || |v.keys| == 0 {
      return 0.0;
    }
    var matching := Matching(u, v);
    if |matching| == 0 {
      return 0.0;
    }
    var total, matched := WeightTotals(u, matching);
    SumPositive(u.keys, u.vals);
    var bonus := MinReal(|matching| as real / Max(|u.keys|, |v.keys|) as real, 0.3);
    s := matched / total + bonus;
  }

  method ActorSimilarity(u: Dict<real>, v: Dict<real>) returns (s: real)
    requires PositiveWeights(u)
    ensures s == ActorScore(u, v)
  {
    if |u.keys| == 0 || |v.keys| == 0 {
      return 0.0;
    }
    var matching := Matching(u, v);
    if |matching| == 0 {
      return 0.0;
    }
    var total, matched := WeightTotals(u, matching);
    SumPositive(u.keys, u.vals);
    var topActorBonus := if |matching| >= 2 then 0.2 else 0.0;
    var overlapBonus := MinReal(|matching| as real / Max(|u.keys|, |v.keys|) as real, 0.2);
    s := matched / total + topActorBonus + overlapBonus;
  }

  method DirectorSimilarity(u: Dict<real>, v: Dict<real>) returns (s: real)
    requires PositiveWeights(u)
    ensures s == DirectorScore(u, v)
  {
    if |u.keys| == 0 || |v.keys| == 0 {
      return 0.0;
    }
    var matching := Matching(u, v);
    if |matching| == 0 {
      return 0.0;
    }
    var total, matched := WeightTotals(u, matching);
    SumPositive(u.keys, u.vals);
    var directorMatchBonus := 0.3;
    s := matched / total + directorMatchBonus;
  }

  /** `calculateSimilarity`: accumulates each weighted sub-score and the sum of the weights, then
      divides; the weights add up to exactly 1, so the result is the weighted sum itself. */
  method CalculateSimilarity(user: FeatureVector, movie: FeatureVector) returns (score: real)
    requires ProfileReady(user)
    ensures score == Score(user, movie)
  {
    var totalScore := 0.0;
    var maxPossibleScore := 0.0;

    var genreScore := GenreSimilarity(user.genres, movie.genres);
    totalScore := totalScore + genreScore * 0.35;
    maxPossibleScore := maxPossibleScore + 0.35;

    var actorScore := ActorSimilarity(user.actors, movie.actors);
    totalScore := totalScore + actorScore * 0.35;
    maxPossibleScore := maxPossibleScore + 0.35;

    var directorScore := DirectorSimilarity(user.directors, movie.directors);
    totalScore := totalScore + directorScore * 0.20;
    maxPossibleScore := maxPossibleScore + 0.20;

    var durationScore := DurationScore(user.duration, movie.duration);
    totalScore := totalScore + durationScore * 0.10;
    maxPossibleScore := maxPossibleScore + 0.10;

    assert maxPossibleScore == 1.0;
    assert totalScore == Score(user, movie);
    score := if maxPossibleScore > 0.0 then totalScore / maxPossibleScore else 0.0;
  }
}
