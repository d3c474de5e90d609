/** The reason string `generateRecommendations` attaches to each recommendation. */
module Reasons {
  import opened Base
  import opened JsString
  import opened Seqs
  import opened Dicts
  import opened Catalog
  import opened Aggregation

  const GenrePrefix := "Similar genres: "
  const ActorPrefix := "Featuring: "
  const DirectorPrefix := "Directed by: "
  const DurationText := "Similar duration to your preferences"
  const DefaultReason := "Based on your viewing patterns"
  /** `" • "`. */
  const Bullet := " \U{2022} "

  /** `counts[t]` is truthy: the key is present with a non-zero count. */
  predicate Counted(d: Dict<int>, t: string) {
    t in d.vals && d.vals[t] != 0
  }

  /** The trimmed comma-separated pieces of `field` that the profile has counted, in field order. */
  function Matches(field: string, d: Dict<int>): seq<string> {
    Filter(RawTokens(field), t => Counted(d, t))
  }

  /** `prefix` followed by the matching pieces joined with ", ", when there are any. */
  function ListClause(prefix: string, field: string, d: Dict<int>): seq<string> {
    var ms := Matches(field, d);
    if ms == [] then [] else [prefix + Join(ms, ", ")]
  }

  /** The duration clause: the profile has a positive mean, the record has a digit run, and the
      two differ by less than 30 minutes. */
  function DurationClause(avg: real, field: string): seq<string> {
    if avg > 0.0 && field != "" then
      match FirstDigitRun(field)
      case Some(n) => if AbsReal(avg - n as real) < 30.0 then [DurationText] else []
      case None => []
    else []
  }

  /** The clauses that apply, pushed in order onto the initially empty list. */
  function Clauses(p: Preferences, m: Movie): seq<string> {
    []
    + ListClause(GenrePrefix, m.genre, p.genreCounts)
    + ListClause(ActorPrefix, m.cast, p.actorCounts)
    + ListClause(DirectorPrefix, m.director, p.directorCounts)
    + DurationClause(p.averageDuration, m.duration)
  }

  /** The clauses joined with bullets, or the default text when there are none. */
  function ReasonText(cs: seq<string>): string {
    if cs == [] then DefaultReason else Join(cs, Bullet)
  }

  /** The reason for recommending `m` to a user with profile `p`. */
  function Reason(p: Preferences, m: Movie): string {
    ReasonText(Clauses(p, m))
  }

  /** One `if (field) { const matching = ...; if (matching.length > 0) reasons.push(...) }` block
      of the reason callback. */
  method PushListClause(reasons: seq<string>, prefix: string, field: string, d: Dict<int>)
    returns (out: seq<string>)
    ensures out == reasons + ListClause(prefix, field, d)
  {
    out := reasons;
    if field != "" {
      var matching := Matches(field, d);
      if |matching| > 0 {
        out := out + [prefix + Join(matching, ", ")];
      }
    } else {
      MatchesOfEmpty(field, d);
    }
  }

  /** The duration block of the reason callback. */
  method PushDurationClause(reasons: seq<string>, avg: real, field: string) returns (out: seq<string>)
    ensures out == reasons + DurationClause(avg, field)
  {
    out := reasons;
    if avg > 0.0 && field != "" {
      var found := FirstDigitRun(field);
      if found.Some? {
        var durationDiff := AbsReal(avg - found.value as real);
        if durationDiff < 30.0 {
          out := out + [DurationText];
        }
      }
    }
  }

  /** The reason callback of `generateRecommendations`: pushes each clause that applies, then
      joins them or falls back to the default text. */
  method BuildReason(p: Preferences, m: Movie) returns (reason: string)
    ensures reason == Reason(p, m)
  {
    var reasons: seq<string> := [];
    reasons := PushListClause(reasons, GenrePrefix, m.genre, p.genreCounts);
    reasons := PushListClause(reasons, ActorPrefix, m.cast, p.actorCounts);
    reasons := PushListClause(reasons, DirectorPrefix, m.director, p.directorCounts);
    reasons := PushDurationClause(reasons, p.averageDuration, m.duration);
    assert reasons == Clauses(p, m);
    reason := if |reasons| > 0 then Join(reasons, Bullet) else DefaultReason;
  }

  lemma MatchesOfEmpty(field: string, d: Dict<int>)
    requires field == ""
    ensures Matches(field, d) == []
  {
    assert RawTokens(field) == [];
  }

  /** A list clause is present exactly when some piece of the field is a counted key, and then it
      is the prefix followed by those pieces. */
  lemma ListClauseFacts(prefix: string, field: string, d: Dict<int>)
    ensures ListClause(prefix, field, d) != [] <==>
      exists i :: 0 <= i < |RawTokens(field)| && Counted(d, RawTokens(field)[i])
    ensures |ListClause(prefix, field, d)| <= 1
    ensures forall i :: 0 <= i < |ListClause(prefix, field, d)| ==>
      StartsWith(ListClause(prefix, field, d)[i], prefix)
  {
    var toks := RawTokens(field);
    FilterFacts(toks, t => Counted(d, t));
    if exists i :: 0 <= i < |toks| && Counted(d, toks[i]) {
      var i :| 0 <= i < |toks| && Counted(d, toks[i]);
      assert toks[i] in Matches(field, d);
    }
    var ms := Matches(field, d);
    if ms != [] {
      PrefixStartsWith(prefix, Join(ms, ", "));
    }
  }

  lemma PrefixStartsWith(a: string, b: string)
    ensures StartsWith(a + b, a)
  {
    assert (a + b)[..|a|] == a;
  }

  /** The duration clause appears exactly when the mean is positive, the duration field has a
      digit run and the two differ by strictly less than 30 minutes. */
  lemma DurationClauseFacts(avg: real, field: string)
    ensures DurationClause(avg, field) == [DurationText] <==>
      avg > 0.0 && FirstDigitRun(field).Some? && AbsReal(avg - FirstDigitRun(field).value as real) < 30.0
    ensures DurationClause(avg, field) != [DurationText] ==> DurationClause(avg, field) == []
  {
  }

  /** Joining a list whose first element is non-empty starts with that element's first character. */
  lemma {:induction false} JoinFirst(parts: seq<string>, sep: string)
    requires parts != [] && parts[0] != ""
    ensures Join(parts, sep) != "" && Join(parts, sep)[0] == parts[0][0]
  {
  }

  /** The default text is used exactly when no clause applies: every clause starts with a letter
      other than the default's first. */
  lemma ReasonDefaultIffNoClause(p: Preferences, m: Movie)
    ensures Reason(p, m) == DefaultReason <==> Clauses(p, m) == []
  {
    var cs := Clauses(p, m);
    if cs != [] {
      ListClauseFacts(GenrePrefix, m.genre, p.genreCounts);
      ListClauseFacts(ActorPrefix, m.cast, p.actorCounts);
      ListClauseFacts(DirectorPrefix, m.director, p.directorCounts);
      DurationClauseFacts(p.averageDuration, m.duration);
      assert cs[0] != "" && cs[0][0] != 'B' by {
        var g := ListClause(GenrePrefix, m.genre, p.genreCounts);
        var a := ListClause(ActorPrefix, m.cast, p.actorCounts);
        var d := ListClause(DirectorPrefix, m.director, p.directorCounts);
        if g != [] {
          assert cs[0] == g[0];
        } else if a != [] {
          assert cs[0] == a[0];
        } else if d != [] {
          assert cs[0] == d[0];
        } else {
          assert cs[0] == DurationText;
        }
      }
      JoinFirst(cs, Bullet);
    }
  }

  /** The clauses come in the fixed order genre, actor, director, duration, each at most once. */
  lemma ClausesOrder(p: Preferences, m: Movie)
    ensures |Clauses(p, m)| <= 4
    ensures forall i :: 0 <= i < |Clauses(p, m)| ==>
      || StartsWith(Clauses(p, m)[i], GenrePrefix)
      || StartsWith(Clauses(p, m)[i], ActorPrefix)
      || StartsWith(Clauses(p, m)[i], DirectorPrefix)
      || Clauses(p, m)[i] == DurationText
    ensures ListClause(GenrePrefix, m.genre, p.genreCounts) != [] ==>
      Clauses(p, m)[0] == ListClause(GenrePrefix, m.genre, p.genreCounts)[0]
    ensures DurationClause(p.averageDuration, m.duration) != [] ==>
      Clauses(p, m)[|Clauses(p, m)| - 1] == DurationText
  {
    ListClauseFacts(GenrePrefix, m.genre, p.genreCounts);
    ListClauseFacts(ActorPrefix, m.cast, p.actorCounts);
    ListClauseFacts(DirectorPrefix, m.director, p.directorCounts);
    DurationClauseFacts(p.averageDuration, m.duration);
  }
}
