/** The movie record every part of the program passes around (a `movie_metadata` row) and the
    way its comma-separated text fields are cut into tokens. */
module Catalog {
  import opened Base
  import opened JsString
  import opened Seqs

  /** A `movie_metadata` row. A text column that is `null` or absent is the empty string, which
      is falsy in the source exactly as `null` is. */
  datatype Movie = Movie(
    id: Option<int>,
    userId: string,
    title: string,
    genre: string,
    cast: string,
    director: string,
    duration: string,
    posterUrl: Option<string>)

  /** The three comma-separated list columns. */
  datatype ListField = Genres | Actors | Directors

  function FieldOf(m: Movie, f: ListField): string {
    match f
    case Genres => m.genre
    case Actors => m.cast
    case Directors => m.director
  }

  /** `parts.map(p => p.trim())`. */
  function TrimAll(parts: seq<string>): (r: seq<string>)
    ensures |r| == |parts|
  {
    if parts == [] then [] else TrimAll(parts[..|parts| - 1]) + [Trim(parts[|parts| - 1])]
  }

  lemma {:induction false} TrimAllElements(parts: seq<string>)
    ensures forall i :: 0 <= i < |parts| ==> TrimAll(parts)[i] == Trim(parts[i])
  {
    if parts != [] {
      TrimAllElements(parts[..|parts| - 1]);
    }
  }

  function NotNA(t: string): bool { t != "N/A" }

  /** `field.split(",").map(t => t.trim())` when the field is truthy, else no tokens. */
  function RawTokens(field: string): (r: seq<string>)
    ensures field == "" ==> r == []
    ensures field != "" ==> |r| >= 1 && r == TrimAll(Split(field, ','))
  {
    if field == "" then [] else TrimAll(Split(field, ','))
  }

  /** The tokens the recommendation engine counts and weighs: none when the field is falsy or
      'N/A'; otherwise the trimmed comma-separated pieces other than 'N/A', empty pieces included. */
  function ListTokens(field: string): (r: seq<string>)
    ensures NotNA(field) ==> r == Filter(RawTokens(field), NotNA)
    ensures !NotNA(field) ==> r == []
    ensures "N/A" !in r
    ensures forall i :: 0 <= i < |r| ==> NoOuterSpace(r[i])
  {
    if field == "" || field == "N/A" then []
    else
      TrimAllElements(Split(field, ','));
      FilterFacts(RawTokens(field), NotNA);
      Filter(RawTokens(field), NotNA)
  }

  /** The minutes read from a duration field with `/(\d+)/`, or `None` when the field is falsy,
      'N/A' or has no digit. */
  function DurationMinutes(field: string): (r: Option<nat>)
    ensures r.Some? <==> field != "N/A" && exists i :: 0 <= i < |field| && IsDigit(field[i])
  {
    if field == "" || field == "N/A" then None else FirstDigitRun(field)
  }

  /** `field.split(",").map(t => t.trim())` for a truthy field other than 'N/A': empty pieces,
      repeated pieces and 'N/A' pieces included. */
  function CandidateTokens(field: string): seq<string> {
    if field == "N/A" then [] else RawTokens(field)
  }

  /** `userKeys.filter(k => movieTokens.includes(k))`. */
  function Matched(userKeys: seq<string>, field: string): seq<string> {
    Filter(userKeys, k => k in CandidateTokens(field))
  }

  /** No key matches a falsy or 'N/A' field. */
  lemma NothingMatched(userKeys: seq<string>, field: string)
    requires field == "" || field == "N/A"
    ensures Matched(userKeys, field) == []
  {
    FilterFacts(userKeys, k => k in CandidateTokens(field));
  }
}
