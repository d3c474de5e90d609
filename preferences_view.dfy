/** The viewing-preferences panel: the top three genres, the top three actors and the most common
    director, 'N/A' left out of the last two, and the average-duration label. */
module PreferencesView {
  import opened Base
  import opened Seqs
  import opened Dicts
  import opened Aggregation
  import opened Ranking

  /** What the panel lists. */
  datatype Summary = Summary(
    topGenres: seq<Entry>,
    topActors: seq<Entry>,
    topDirectors: seq<Entry>,
    durationLabel: string)

  /** `{ ...counts }` followed by `delete copy["N/A"]`. */
  function WithoutNotAvailable(counts: Dict<int>): Dict<int>
    requires Valid(counts)
  {
    Delete(counts, "N/A")
  }

  function DurationLabel(averageDuration: real): string {
    if averageDuration > 90.0 then "Above 90 min" else "90 min or less"
  }

  /** The panel for a profile. */
  function Summarize(p: Preferences): Summary
    requires Valid(p.genreCounts) && Valid(p.actorCounts) && Valid(p.directorCounts)
  {
    Summary(
      TopN(p.genreCounts, 3),
      TopN(WithoutNotAvailable(p.actorCounts), 3),
      TopN(WithoutNotAvailable(p.directorCounts), 1),
      DurationLabel(p.averageDuration))
  }

  /** The copy keeps every key but 'N/A', with the same count and in the same order. */
  lemma WithoutNotAvailableFacts(counts: Dict<int>)
    requires Valid(counts)
    ensures "N/A" !in WithoutNotAvailable(counts).vals
    ensures forall k :: k in counts.vals && k != "N/A" ==>
      k in WithoutNotAvailable(counts).vals && WithoutNotAvailable(counts).vals[k] == counts.vals[k]
    ensures WithoutNotAvailable(counts).keys == Filter(counts.keys, (k: string) => k != "N/A")
  {
  }

  /** The panel lists at most three genres and three actors and one director, each with its
      count; 'N/A' is never listed as an actor or a director; a director is listed whenever some
      director other than 'N/A' was counted, and no such director has a higher count. */
  lemma SummaryFacts(p: Preferences)
    requires Valid(p.genreCounts) && Valid(p.actorCounts) && Valid(p.directorCounts)
    ensures |Summarize(p).topGenres| <= 3 && |Summarize(p).topActors| <= 3
    ensures |Summarize(p).topDirectors| <= 1
    ensures forall e :: e in Summarize(p).topActors ==>
      e.item != "N/A" && e.item in p.actorCounts.vals && e.count == p.actorCounts.vals[e.item]
    ensures forall e :: e in Summarize(p).topDirectors ==>
      e.item != "N/A" && e.item in p.directorCounts.vals && e.count == p.directorCounts.vals[e.item]
    ensures |Summarize(p).topDirectors| == 1 <==> exists k :: k in p.directorCounts.vals && k != "N/A"
    ensures forall k :: k in p.directorCounts.vals && k != "N/A" ==>
      p.directorCounts.vals[k] <= Summarize(p).topDirectors[0].count
  {
    var s := Summarize(p);
    var actors := WithoutNotAvailable(p.actorCounts);
    var directors := WithoutNotAvailable(p.directorCounts);
    TopNFacts(p.genreCounts, 3);
    TopNFacts(actors, 3);
    TopNFacts(directors, 1);
    WithoutNotAvailableFacts(p.actorCounts);
    WithoutNotAvailableFacts(p.directorCounts);
    forall e | e in s.topActors
      ensures e.item != "N/A" && e.item in p.actorCounts.vals && e.count == p.actorCounts.vals[e.item]
    {
      var i :| 0 <= i < |s.topActors| && s.topActors[i] == e;
    }
    forall e | e in s.topDirectors
      ensures e.item != "N/A" && e.item in p.directorCounts.vals && e.count == p.directorCounts.vals[e.item]
    {
      var i :| 0 <= i < |s.topDirectors| && s.topDirectors[i] == e;
    }
    TopDirectorFacts(directors);
    if exists k :: k in p.directorCounts.vals && k != "N/A" {
      var k :| k in p.directorCounts.vals && k != "N/A";
      assert k in directors.keys;
    }
  }

  /** For a one-entry ranking: an entry exactly when the map has a key, and that entry's count
      is at least every key's count. */
  lemma TopDirectorFacts(d: Dict<int>)
    requires Valid(d)
    ensures |TopN(d, 1)| == 1 <==> d.keys != []
    ensures forall k :: k in d.vals ==> d.vals[k] <= TopN(d, 1)[0].count
  {
    TopKeysFacts(d, 1);
    TopNFacts(d, 1);
    if d.keys != [] {
      var t := TopKeys(d, 1)[0];
      EntriesFacts(d, TopKeys(d, 1));
      assert TopN(d, 1)[0] == Entry(t, d.vals[t]);
      forall k | k in d.vals ensures d.vals[k] <= d.vals[t] {
        assert k in d.keys;
        if k != t {
          assert k !in TopKeys(d, 1);
          assert CountOf(d, k) <= CountOf(d, t);
        }
      }
    }
  }

  /** The label says "Above 90 min" exactly when the average exceeds 90 minutes. */
  lemma DurationLabelFacts(averageDuration: real)
    ensures DurationLabel(averageDuration) == "Above 90 min" <==> averageDuration > 90.0
  {
  }
}
