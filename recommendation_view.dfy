/** The recommendation cards: how a card shows a movie's duration, its similarity badge and match
    level, why the movie matches the user's profile, and the profile's top genre and actor. */
module RecommendationView {
  import opened Base
  import opened JsString
  import opened Seqs
  import opened Dicts
  import opened Catalog
  import opened Aggregation
  import opened Ranking
  import Reasons

  // ---------------------------------------------------------------------------------------------
  // Duration

  /** `formatDuration(duration)`: the first run of digits read as minutes, shown as "<h>h <m>m"
      from an hour up and as "<m>m" below; a text without a digit is shown unchanged. */
  function FormatDuration(duration: string): string {
    match FirstDigitRun(duration)
    case None => duration
    case Some(minutes) =>
      var hours := minutes / 60;
      var remaining := minutes % 60;
      if hours > 0 then NatToString(hours) + "h " + NatToString(remaining) + "m"
      else NatToString(minutes) + "m"
  }

  /** How a reader takes a shown duration: "<h>h <m>m" stands for 60h + m minutes and "<m>m"
      for m minutes; `None` when the text does not start with a digit. */
  function ShownMinutes(shown: string): Option<nat> {
    var n := LeadingDigits(shown);
    if n == 0 then None
    else
      var first := DecimalValue(shown[..n]);
      if n + 2 <= |shown| && shown[n..n + 2] == "h " then
        var rest := shown[n + 2..];
        var k := LeadingDigits(rest);
        if k == 0 then None else Some(60 * first + DecimalValue(rest[..k]))
      else Some(first)
  }

  /** From an hour up the shown text stands for the same minutes and names the hours. */
  lemma {:induction false} HoursShown(minutes: nat)
    requires minutes >= 60
    ensures var shown := NatToString(minutes / 60) + "h " + NatToString(minutes % 60) + "m";
      ShownMinutes(shown) == Some(minutes) && 'h' in shown
  {
    var hs := NatToString(minutes / 60);
    var rs := NatToString(minutes % 60);
    var shown := hs + "h " + rs + "m";
    assert shown == hs + ("h " + rs + "m");
    LeadingDigitsPrefix(hs, "h " + rs + "m");
    assert shown[..|hs|] == hs;
    assert shown[|hs|..|hs| + 2] == "h ";
    var rest := shown[|hs| + 2..];
    assert rest == rs + "m";
    LeadingDigitsPrefix(rs, "m");
    assert rest[..|rs|] == rs;
    assert shown[|hs|] == 'h';
  }

  /** Below an hour the shown text stands for the same minutes and names no hours. */
  lemma {:induction false} MinutesShown(minutes: nat)
    ensures var shown := NatToString(minutes) + "m";
      ShownMinutes(shown) == Some(minutes) && 'h' !in shown
  {
    var ms := NatToString(minutes);
    var shown := ms + "m";
    LeadingDigitsPrefix(ms, "m");
    assert shown[..|ms|] == ms;
    forall i | 0 <= i < |shown| ensures shown[i] != 'h' {
      if i < |ms| {
        assert IsDigit(ms[i]);
      }
    }
  }

  /** A duration with a digit is shown as a text ending in "m" that stands for the same number of
      minutes and names hours exactly from 60 minutes up; one without a digit is kept as it is. */
  lemma FormatDurationFacts(duration: string)
    ensures FirstDigitRun(duration).None? ==> FormatDuration(duration) == duration
    ensures FirstDigitRun(duration).Some? ==>
      ShownMinutes(FormatDuration(duration)) == FirstDigitRun(duration) &&
      EndsWith(FormatDuration(duration), "m")
    ensures FirstDigitRun(duration).Some? ==>
      ('h' in FormatDuration(duration) <==> FirstDigitRun(duration).value >= 60)
  {
    if FirstDigitRun(duration).Some? {
      var minutes := FirstDigitRun(duration).value;
      if minutes >= 60 {
        HoursShown(minutes);
      } else {
        MinutesShown(minutes);
      }
    }
  }

  /** A duration stored as "<n> min" is shown as a text that stands for n minutes. */
  lemma StoredDurationShown(n: nat)
    ensures ShownMinutes(FormatDuration(NatToString(n) + " min")) == Some(n)
  {
    FirstDigitRunOfMinutes(n);
    FormatDurationFacts(NatToString(n) + " min");
  }

  // ---------------------------------------------------------------------------------------------
  // Similarity badge and match level

  /** `getSimilarityColor(similarity)`. */
  function SimilarityColor(similarity: real): string {
    if similarity >= 0.8 then "bg-green-500"
    else if similarity >= 0.6 then "bg-blue-500"
    else if similarity >= 0.4 then "bg-yellow-500"
    else "bg-gray-500"
  }

  /** `getSimilarityText(similarity)`. */
  function SimilarityText(similarity: real): string {
    if similarity >= 0.8 then "Excellent Match"
    else if similarity >= 0.6 then "Great Match"
    else if similarity >= 0.4 then "Good Match"
    else "Fair Match"
  }

  /** The badge texts and colours from the weakest to the strongest match. */
  const TextTiers: seq<string> := ["Fair Match", "Good Match", "Great Match", "Excellent Match"]
  const ColorTiers: seq<string> := ["bg-gray-500", "bg-yellow-500", "bg-blue-500", "bg-green-500"]

  /** The position of `name` in `tiers`, or `|tiers|` when it is not there. */
  function IndexIn(tiers: seq<string>, name: string): nat {
    if tiers == [] then 0 else if tiers[0] == name then 0 else 1 + IndexIn(tiers[1..], name)
  }

  /** The badge's text and colour belong to the same tier; the top tier is reached from 0.8 and
      the bottom one holds everything below 0.4. */
  lemma BadgeFacts(similarity: real)
    ensures IndexIn(TextTiers, SimilarityText(similarity)) < 4
    ensures IndexIn(TextTiers, SimilarityText(similarity)) == IndexIn(ColorTiers, SimilarityColor(similarity))
    ensures IndexIn(TextTiers, SimilarityText(similarity)) == 3 <==> similarity >= 0.8
    ensures IndexIn(TextTiers, SimilarityText(similarity)) == 0 <==> similarity < 0.4
  {
  }

  /** A higher similarity never gets a weaker badge. */
  lemma BadgeMonotone(s: real, t: real)
    requires s <= t
    ensures IndexIn(TextTiers, SimilarityText(s)) <= IndexIn(TextTiers, SimilarityText(t))
    ensures IndexIn(ColorTiers, SimilarityColor(s)) <= IndexIn(ColorTiers, SimilarityColor(t))
  {
  }

  /** `Math.round(x)`: the nearest integer, halves rounded up. */
  function MathRound(x: real): int {
    (x + 0.5).Floor
  }

  /** The rounded value is within a half of `x`, and reaches `k` exactly when `x` reaches
      `k - 0.5`. */
  lemma MathRoundFacts(x: real, k: int)
    ensures x - 0.5 < MathRound(x) as real <= x + 0.5
    ensures MathRound(x) >= k <==> x >= k as real - 0.5
  {
  }

  /** `{ level, color, bgColor }`. */
  datatype MatchLevel = MatchLevel(level: string, color: string, bgColor: string)

  /** `Math.round(similarity * 100)`. */
  function Percentage(similarity: real): int {
    MathRound(similarity * 100.0)
  }

  /** `getMatchLevel(similarity)`. */
  function GetMatchLevel(similarity: real): MatchLevel {
    var percentage := Percentage(similarity);
    if percentage >= 80 then MatchLevel("\U{1F525} EXCELLENT", "text-green-600", "bg-green-50")
    else if percentage >= 60 then MatchLevel("\U{2B50} GREAT", "text-blue-600", "bg-blue-50")
    else if percentage >= 40 then MatchLevel("\U{1F44D} GOOD", "text-yellow-600", "bg-yellow-50")
    else if percentage >= 20 then MatchLevel("\U{2705} FAIR", "text-orange-600", "bg-orange-50")
    else MatchLevel("\U{1F4CA} LOW", "text-gray-600", "bg-gray-50")
  }

  /** The match levels from the weakest to the strongest. */
  const LevelTiers: seq<string> :=
    ["\U{1F4CA} LOW", "\U{2705} FAIR", "\U{1F44D} GOOD", "\U{2B50} GREAT", "\U{1F525} EXCELLENT"]

  /** Because the percentage is rounded, each level starts half a point below its threshold: the
      top level from 0.795, the bottom one below 0.195. */
  lemma MatchLevelFacts(similarity: real)
    ensures IndexIn(LevelTiers, GetMatchLevel(similarity).level) < 5
    ensures IndexIn(LevelTiers, GetMatchLevel(similarity).level) == 4 <==> similarity >= 0.795
    ensures IndexIn(LevelTiers, GetMatchLevel(similarity).level) >= 3 <==> similarity >= 0.595
    ensures IndexIn(LevelTiers, GetMatchLevel(similarity).level) >= 2 <==> similarity >= 0.395
    ensures IndexIn(LevelTiers, GetMatchLevel(similarity).level) == 0 <==> similarity < 0.195
  {
    var x := similarity * 100.0;
    MathRoundFacts(x, 80);
    MathRoundFacts(x, 60);
    MathRoundFacts(x, 40);
    MathRoundFacts(x, 20);
  }

  /** A higher similarity never gets a weaker match level. */
  lemma MatchLevelMonotone(s: real, t: real)
    requires s <= t
    ensures IndexIn(LevelTiers, GetMatchLevel(s).level) <= IndexIn(LevelTiers, GetMatchLevel(t).level)
  {
    MatchLevelFacts(s);
    MatchLevelFacts(t);
  }

  // ---------------------------------------------------------------------------------------------
  // Match reason

  /** The profile keys the card names for one list: none when the movie's field is falsy or
      'N/A', otherwise the keys among the field's trimmed pieces, in key order. */
  function MatchesOf(userKeys: seq<string>, field: string): seq<string> {
    if field == "" || field == "N/A" then [] else Matched(userKeys, field)
  }

  /** `${n} <noun> match${n > 1 ? 'es' : ''}: ${matching.slice(0, 2).join(", ")}`. */
  function MatchClause(noun: string, matching: seq<string>): string {
    var n := |matching|;
    NatToString(n) + " " + noun + " match" + (if n > 1 then "es" else "") + ": " +
      Join(Take(matching, 2), ", ")
  }

  /** The clause for one list, when some key matched. */
  function ClauseFor(noun: string, matching: seq<string>): seq<string> {
    if |matching| > 0 then [MatchClause(noun, matching)] else []
  }

  function MatchClauses(m: Movie, p: Preferences): seq<string> {
    ClauseFor("genre", MatchesOf(p.genreCounts.keys, m.genre)) +
    ClauseFor("actor", MatchesOf(p.actorCounts.keys, m.cast)) +
    ClauseFor("director", MatchesOf(p.directorCounts.keys, m.director))
  }

  const DefaultMatchReason := "Similar content style"

  /** `getMatchReason(movie, userPreferences)`. */
  function MatchReason(m: Movie, p: Preferences): string {
    var clauses := MatchClauses(m, p);
    if |clauses| > 0 then Join(clauses, ", ") else DefaultMatchReason
  }

  /** A key is named for a list exactly when it is a profile key found among the trimmed pieces
      of a truthy, non-'N/A' field; with a duplicate-free key list no key is named twice. */
  lemma MatchesOfFacts(userKeys: seq<string>, field: string)
    ensures forall k :: k in MatchesOf(userKeys, field) <==>
      k in userKeys && field != "" && field != "N/A" && k in RawTokens(field)
    ensures NoDup(userKeys) ==> NoDup(MatchesOf(userKeys, field))
  {
    var p := k => k in CandidateTokens(field);
    FilterFacts(userKeys, p);
    if NoDup(userKeys) {
      NoDupOfSubseq(Filter(userKeys, p), userKeys);
    }
  }

  /** The clause starts with the number of matches, says "matches" exactly when there is more
      than one, and names at most two of the matched keys, the first ones. */
  lemma {:induction false} MatchClauseFacts(noun: string, matching: seq<string>)
    requires |matching| > 0
    ensures FirstDigitRun(MatchClause(noun, matching)) == Some(|matching|)
    ensures StartsWith(MatchClause(noun, matching), NatToString(|matching|) + " " + noun + " matches: ")
      <==> |matching| > 1
    ensures EndsWith(MatchClause(noun, matching), Join(Take(matching, 2), ", "))
    ensures |Take(matching, 2)| == Min(2, |matching|)
    ensures forall i :: 0 <= i < |Take(matching, 2)| ==> Take(matching, 2)[i] == matching[i]
  {
    var n := |matching|;
    var ns := NatToString(n);
    var head := ns + " " + noun + " match";
    var names := Join(Take(matching, 2), ", ");
    var c := MatchClause(noun, matching);
    var tail := " " + noun + " match" + (if n > 1 then "es" else "") + ": " + names;
    assert c == ns + tail;
    LeadingDigitsPrefix(ns, tail);
    assert c[..|ns|] == ns;
    assert IsDigit(c[0]);
    var plural := ns + " " + noun + " matches: ";
    if n > 1 {
      assert c == plural + names;
      assert c[..|plural|] == plural;
    } else {
      assert c == head + ": " + names;
      assert c[|head|] == ':' && plural[|head|] == 'e';
    }
    assert c[|c| - |names|..] == names;
  }

  /** A list adds one clause, starting with a digit, exactly when some key matched. */
  lemma ClauseForFacts(noun: string, matching: seq<string>)
    ensures |ClauseFor(noun, matching)| == if matching == [] then 0 else 1
    ensures forall c :: c in ClauseFor(noun, matching) ==> c != "" && IsDigit(c[0])
  {
    if matching != [] {
      MatchClauseFacts(noun, matching);
    }
  }

  /** The default text is shown exactly when no list matched; otherwise at most three clauses,
      genre first when it matched. */
  lemma MatchReasonFacts(m: Movie, p: Preferences)
    ensures MatchReason(m, p) == DefaultMatchReason <==> MatchClauses(m, p) == []
    ensures |MatchClauses(m, p)| <= 3
    ensures MatchClauses(m, p) == [] <==>
      MatchesOf(p.genreCounts.keys, m.genre) == [] &&
      MatchesOf(p.actorCounts.keys, m.cast) == [] &&
      MatchesOf(p.directorCounts.keys, m.director) == []
    ensures MatchesOf(p.genreCounts.keys, m.genre) != [] ==>
      MatchClauses(m, p)[0] == MatchClause("genre", MatchesOf(p.genreCounts.keys, m.genre))
  {
    var g := ClauseFor("genre", MatchesOf(p.genreCounts.keys, m.genre));
    var a := ClauseFor("actor", MatchesOf(p.actorCounts.keys, m.cast));
    var d := ClauseFor("director", MatchesOf(p.directorCounts.keys, m.director));
    ClauseForFacts("genre", MatchesOf(p.genreCounts.keys, m.genre));
    ClauseForFacts("actor", MatchesOf(p.actorCounts.keys, m.cast));
    ClauseForFacts("director", MatchesOf(p.directorCounts.keys, m.director));
    var cs := MatchClauses(m, p);
    assert cs == g + a + d;
    if cs != [] {
      assert cs[0] in g || cs[0] in a || cs[0] in d;
      Reasons.JoinFirst(cs, ", ");
      assert MatchReason(m, p)[0] != DefaultMatchReason[0];
    }
  }

  // ---------------------------------------------------------------------------------------------
  // Profile summary

  /** `Object.entries(counts).sort(([, a], [, b]) => b - a)[0]?.[0] || "N/A"`: the key with the
      highest count, the first such in key order; 'N/A' when there is none or it is the empty
      string, which is falsy. */
  function TopLabel(d: Dict<int>): string {
    var top := TopKeys(d, 1);
    if |top| == 0 || top[0] == "" then "N/A" else top[0]
  }

  /** Unless it is 'N/A', the label is a key whose count no other key exceeds; 'N/A' is shown for
      an empty map, and otherwise only when a key with the highest count is "" or "N/A". */
  lemma TopLabelFacts(d: Dict<int>)
    ensures d.keys == [] ==> TopLabel(d) == "N/A"
    ensures TopLabel(d) != "N/A" ==>
      TopLabel(d) in d.keys && forall k :: k in d.keys ==> CountOf(d, k) <= CountOf(d, TopLabel(d))
    ensures d.keys != [] && TopLabel(d) == "N/A" ==>
      exists t :: t in d.keys && (t == "" || t == "N/A") &&
        forall k :: k in d.keys ==> CountOf(d, k) <= CountOf(d, t)
  {
    TopKeysFacts(d, 1);
    var top := TopKeys(d, 1);
    if d.keys != [] {
      var t := top[0];
      assert forall k :: k in d.keys ==> CountOf(d, k) <= CountOf(d, t) by {
        forall k | k in d.keys ensures CountOf(d, k) <= CountOf(d, t) {
          if k in top {
            assert k == t;
          }
        }
      }
      if TopLabel(d) == "N/A" {
        assert t == "" || t == "N/A";
      }
    }
  }
}
