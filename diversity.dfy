/** `addDiversityToRecommendations`: a greedy, order-preserving re-rank that prefers candidates
    bringing a genre or director not seen yet. */
module Diversity {
  import opened Base
  import opened Seqs
  import opened Catalog

  /** `{ movie, similarity }`. */
  datatype Scored = Scored(movie: Movie, similarity: real)

  /** The picked list and the genre and director sets the pass has seen so far. */
  datatype Picking = Picking(picked: seq<Scored>, usedGenres: set<string>, usedDirectors: set<string>)

  /** The genre and director tokens the pass compares. */
  datatype Tags = Tags(genres: seq<string>, directors: seq<string>)

  /** `field ? field.split(",").map(t => t.trim()) : []` for the genre and director fields. The
      pass below is stated for any tagging function and applied to this one. */
  function SourceTags(r: Scored): Tags {
    Tags(RawTokens(r.movie.genre), RawTokens(r.movie.director))
  }

  /** `toks.some(t => !used.has(t))`. */
  predicate HasNew(toks: seq<string>, used: set<string>) {
    toks != [] && (toks[|toks| - 1] !in used || HasNew(toks[..|toks| - 1], used))
  }

  /** `toks.forEach(t => used.add(t))` adds exactly these. */
  function AsSet(toks: seq<string>): set<string> {
    if toks == [] then {} else AsSet(toks[..|toks| - 1]) + {toks[|toks| - 1]}
  }

  /** The top candidate is always kept, and its genres and directors are marked as seen. */
  function Start(first: Scored, tags: Scored -> Tags): Picking {
    Picking([first], AsSet(tags(first).genres), AsSet(tags(first).directors))
  }

  /** One pass of the loop body: once `target` candidates are picked nothing more is added;
      otherwise a candidate is kept when it brings a new genre or director, or while fewer
      than half of `target` are picked. */
  function Step(s: Picking, rec: Scored, target: int, tags: Scored -> Tags): Picking {
    var t := tags(rec);
    if |s.picked| >= target then s
    else if HasNew(t.genres, s.usedGenres) || HasNew(t.directors, s.usedDirectors)
      || 2 * |s.picked| < target
    then Picking(s.picked + [rec], s.usedGenres + AsSet(t.genres), s.usedDirectors + AsSet(t.directors))
    else s
  }

  /** The state after the first `n` candidates. */
  function Run(recs: seq<Scored>, target: int, tags: Scored -> Tags, n: nat): Picking
    requires 1 <= n <= |recs|
  {
    if n == 1 then Start(recs[0], tags) else Step(Run(recs, target, tags, n - 1), recs[n - 1], target, tags)
  }

  /** What `addDiversityToRecommendations(recs, target)` returns when candidates are tagged by
      `tags` (the source tags them with `SourceTags`). */
  function Diversify(recs: seq<Scored>, target: int, tags: Scored -> Tags): seq<Scored> {
    if |recs| <= target then recs
    else if recs == [] then []
    else Run(recs, target, tags, |recs|).picked
  }

  /** Once `target` candidates are picked, the remaining candidates change nothing. */
  lemma {:induction false} RunStable(recs: seq<Scored>, target: int, tags: Scored -> Tags, i: nat, n: nat)
    requires 1 <= i <= n <= |recs|
    requires |Run(recs, target, tags, i).picked| >= target
    ensures Run(recs, target, tags, n) == Run(recs, target, tags, i)
    decreases n - i
  {
    if n > i {
      RunStable(recs, target, tags, i, n - 1);
      StepFull(Run(recs, target, tags, n - 1), recs[n - 1], target, tags);
    }
  }

  lemma StepFull(s: Picking, rec: Scored, target: int, tags: Scored -> Tags)
    requires |s.picked| >= target
    ensures Step(s, rec, target, tags) == s
  {
  }

  /** A step either keeps the state or appends the candidate; it appends only below `target`,
      and always while fewer than half of `target` are picked. */
  lemma StepCases(s: Picking, rec: Scored, target: int, tags: Scored -> Tags)
    ensures Step(s, rec, target, tags).picked == s.picked
      || (|s.picked| < target && Step(s, rec, target, tags).picked == s.picked + [rec])
    ensures 2 * |s.picked| < target ==> Step(s, rec, target, tags).picked == s.picked + [rec]
  {
  }

  /** What holds after every prefix: the top candidate comes first, no more than `target` (or
      the first alone) are picked, and while fewer than half of `target` are picked every
      candidate read so far was kept. */
  lemma {:induction false} RunCount(recs: seq<Scored>, target: int, tags: Scored -> Tags, n: nat)
    requires 1 <= n <= |recs|
    ensures |Run(recs, target, tags, n).picked| >= 1
    ensures Run(recs, target, tags, n).picked[0] == recs[0]
    ensures |Run(recs, target, tags, n).picked| <= Max(target, 1)
    ensures 2 * |Run(recs, target, tags, n).picked| < target ==> |Run(recs, target, tags, n).picked| == n
  {
    if n > 1 {
      RunCount(recs, target, tags, n - 1);
      StepCases(Run(recs, target, tags, n - 1), recs[n - 1], target, tags);
    }
  }

  /** The picked candidates keep their relative order. */
  lemma {:induction false} RunOrder(recs: seq<Scored>, target: int, tags: Scored -> Tags, n: nat)
    requires 1 <= n <= |recs|
    ensures IsSubseq(Run(recs, target, tags, n).picked, recs[..n])
  {
    var p := Run(recs, target, tags, n).picked;
    if n == 1 {
      assert recs[..1] == [recs[0]];
      assert p[..0] == recs[..1][..0];
    } else {
      RunOrder(recs, target, tags, n - 1);
      RunCount(recs, target, tags, n - 1);
      var q := Run(recs, target, tags, n - 1).picked;
      StepCases(Run(recs, target, tags, n - 1), recs[n - 1], target, tags);
      assert recs[..n] == recs[..n - 1] + [recs[n - 1]];
      SubseqExtend(q, recs[..n - 1], recs[n - 1]);
    }
  }

  /** A list no longer than the target comes back unchanged; a longer one, with a target of at
      least 1, becomes an order-preserving selection that starts with the top candidate and has
      at least half of `target` and at most `target` entries. */
  lemma DiversifyProperties(recs: seq<Scored>, target: int, tags: Scored -> Tags)
    ensures |recs| <= target ==> Diversify(recs, target, tags) == recs
    ensures |recs| > target >= 1 ==>
      var r := Diversify(recs, target, tags);
      && IsSubseq(r, recs)
      && r[0] == recs[0]
      && 2 * |r| >= target
      && |r| <= target
  {
    if |recs| > target >= 1 {
      RunCount(recs, target, tags, |recs|);
      RunOrder(recs, target, tags, |recs|);
      assert recs[..|recs|] == recs;
    }
  }

  /** With a target of 0 or less, a non-empty list still yields its top candidate alone. */
  lemma DiversifyNonPositiveTarget(recs: seq<Scored>, target: int, tags: Scored -> Tags)
    requires recs != [] && target <= 0
    ensures Diversify(recs, target, tags) == [recs[0]]
  {
    RunCount(recs, target, tags, |recs|);
  }

  /** A candidate adding neither a new genre nor a new director is skipped once half of the
      target is reached, and one adding either is kept while fewer than `target` are picked. */
  lemma StepKeepsNewTags(s: Picking, rec: Scored, target: int, tags: Scored -> Tags)
    ensures var t := tags(rec);
      && (!HasNew(t.genres, s.usedGenres) && !HasNew(t.directors, s.usedDirectors) && 2 * |s.picked| >= target
          ==> Step(s, rec, target, tags) == s)
      && ((HasNew(t.genres, s.usedGenres) || HasNew(t.directors, s.usedDirectors)) && |s.picked| < target
          ==> Step(s, rec, target, tags).picked == s.picked + [rec])
  {
  }

  /** `addDiversityToRecommendations`: the loop runs from the second candidate while fewer than
      `target` are picked, updating the two seen-sets in place. */
  method AddDiversity(recs: seq<Scored>, target: int, tags: Scored -> Tags) returns (result: seq<Scored>)
    ensures result == Diversify(recs, target, tags)
  {
    if |recs| <= target {
      return recs;
    }
    var picked: seq<Scored> := [];
    var usedGenres: set<string> := {};
    var usedDirectors: set<string> := {};
    if |recs| > 0 {
      var first := tags(recs[0]);
      picked := picked + [recs[0]];
      usedGenres := usedGenres + AsSet(first.genres);
      usedDirectors := usedDirectors + AsSet(first.directors);
    } else {
      return [];
    }
    var i := 1;
    while i < |recs| && |picked| < target
      invariant 1 <= i <= |recs|
      invariant Picking(picked, usedGenres, usedDirectors) == Run(recs, target, tags, i)
      decreases |recs| - i
    {
      var rec := recs[i];
      var t := tags(rec);
      var hasNewGenre := HasNew(t.genres, usedGenres);
      var hasNewDirector := HasNew(t.directors, usedDirectors);
      if hasNewGenre || hasNewDirector || 2 * |picked| < target {
        picked := picked + [rec];
        usedGenres := usedGenres + AsSet(t.genres);
        usedDirectors := usedDirectors + AsSet(t.directors);
      }
      i := i + 1;
    }
    if i < |recs| {
      RunStable(recs, target, tags, i, |recs|);
    }
    result := picked;
  }
}
