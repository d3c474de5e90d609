/** lib/tmdb-processor.ts: turning rows of the TMDB movie and credit exports into
    `movie_metadata` records, and the batch loop that stores them; plus the variant of the
    credit transform in scripts/tmdb-csv-parser.js. */
module Tmdb {
  import opened Base
  import opened JsString
  import opened Seqs
  import opened Catalog

  /** An element of a parsed TMDB JSON array (`genres`, `cast`, `crew`): its `name` and its
      `job`, each "" when absent or null. */
  datatype Entry = Entry(name: string, job: string)

  /** `JSON.parse` on a column's text, `None` when it throws. */
  type JsonReader = string -> Option<seq<Entry>>

  const EmptyArray := "[]"

  /** `parseJSONArray(text)`: the parsed array, or [] when parsing fails; the default text "[]"
      is the empty array. */
  function ParseArray(parse: JsonReader, text: string): seq<Entry> {
    if text == EmptyArray then []
    else match parse(text)
      case Some(a) => a
      case None => []
  }

  function NameOf(e: Entry): string { e.name }

  /** `name && name !== 'N/A'`. */
  predicate Shown(name: string) { name != "" && name != "N/A" }

  predicate IsDirector(e: Entry) { e.job == "Director" }

  const ListSep := ", "
  const CastLimit := 10

  function GenreNames(genres: seq<Entry>): seq<string> {
    Filter(Map(genres, NameOf), Shown)
  }

  /** The first ten cast entries are taken before the filter. */
  function CastNames(cast: seq<Entry>): seq<string> {
    Filter(Map(Take(cast, CastLimit), NameOf), Shown)
  }

  function DirectorNames(crew: seq<Entry>): seq<string> {
    Filter(Map(Filter(crew, IsDirector), NameOf), Shown)
  }

  /** `extractGenres`, `extractCast` and `extractDirector`. */
  function ExtractGenres(parse: JsonReader, text: string): string {
    Join(GenreNames(ParseArray(parse, text)), ListSep)
  }

  function ExtractCast(parse: JsonReader, text: string): string {
    Join(CastNames(ParseArray(parse, text)), ListSep)
  }

  function ExtractDirector(parse: JsonReader, text: string): string {
    Join(DirectorNames(ParseArray(parse, text)), ListSep)
  }

  /** The genre names are the shown names of the genre entries, in order. */
  lemma GenreNamesFacts(genres: seq<Entry>)
    ensures forall x :: x in GenreNames(genres) <==> Shown(x) && exists i :: 0 <= i < |genres| && x == NameOf(genres[i])
    ensures IsSubseq(GenreNames(genres), Map(genres, NameOf))
  {
    var names := Map(genres, NameOf);
    FilterOfMapMembership(genres, NameOf, Shown);
    FilterFacts(names, Shown);
    forall x ensures x in GenreNames(genres) <==> Shown(x) && exists i :: 0 <= i < |genres| && x == NameOf(genres[i]) {
    }
  }

  /** At most ten cast names, each shown and among the names of the first ten entries. */
  lemma CastNamesFacts(cast: seq<Entry>)
    ensures |CastNames(cast)| <= CastLimit
    ensures forall x :: x in CastNames(cast) <==> Shown(x) && exists i :: 0 <= i < Min(CastLimit, |cast|) && x == NameOf(cast[i])
    ensures IsSubseq(CastNames(cast), Map(Take(cast, CastLimit), NameOf))
  {
    var first := Take(cast, CastLimit);
    FilterOfMapMembership(first, NameOf, Shown);
    FilterFacts(Map(first, NameOf), Shown);
  }

  /** The director names are the shown names of the crew entries whose job is exactly
      "Director", in crew order. */
  lemma DirectorNamesFacts(crew: seq<Entry>)
    ensures forall x :: x in DirectorNames(crew) <==>
      Shown(x) && exists i :: 0 <= i < |crew| && IsDirector(crew[i]) && x == NameOf(crew[i])
    ensures IsSubseq(DirectorNames(crew), Map(Filter(crew, IsDirector), NameOf))
  {
    var names := Map(Filter(crew, IsDirector), NameOf);
    FilterMapFilterMembership(crew, IsDirector, NameOf, Shown);
    FilterFacts(names, Shown);
  }

  const NotAvailable := "N/A"

  /** `formatDuration(runtime)`. */
  function FormatDuration(runtime: string): string {
    match ParseInt(runtime)
    case None => NotAvailable
    case Some(n) => if n == 0 then NotAvailable else IntToString(n) + " min"
  }

  /** 'N/A' exactly when `parseInt` fails or reads 0; otherwise a text from which `parseInt`
      reads back the same minutes, so formatting twice changes nothing. */
  lemma FormatDurationFacts(runtime: string)
    ensures FormatDuration(runtime) == NotAvailable <==> ParseInt(runtime).None? || ParseInt(runtime) == Some(0)
    ensures FormatDuration(runtime) != NotAvailable ==> ParseInt(FormatDuration(runtime)) == ParseInt(runtime)
    ensures FormatDuration(FormatDuration(runtime)) == FormatDuration(runtime)
  {
    assert LeadingSpaces(NotAvailable) == 0;
    assert NotAvailable[0..] == NotAvailable;
    assert ParseInt(NotAvailable).None?;
    if ParseInt(runtime).Some? && ParseInt(runtime).value != 0 {
      var n := ParseInt(runtime).value;
      ParseIntOfMinutes(n);
      assert IntToString(n) + " min" != NotAvailable by {
        var t := IntToString(n) + " min";
        assert t[0] == '-' || IsDigit(t[0]);
      }
    }
  }

  /** A row of the TMDB movie export; a missing column is "". */
  datatype RawMovie = RawMovie(
    id: string, title: string, originalTitle: string, genres: string, runtime: string,
    releaseDate: string, overview: string, voteAverage: string, voteCount: string)

  datatype TmdbMovie = TmdbMovie(
    id: string, title: string, genres: string, runtime: string,
    releaseDate: string, overview: string, voteAverage: string, voteCount: string)

  /** A row of the TMDB credit export; a missing column is "". */
  datatype RawCredit = RawCredit(id: string, movieId: string, cast: string, crew: string)

  datatype TmdbCredit = TmdbCredit(movieId: string, cast: string, crew: string)

  /** `a || b` on strings. */
  function Or(a: string, b: string): string { if a != "" then a else b }

  /** `processTMDBMovie(movie)`. */
  function ProcessMovie(parse: JsonReader, m: RawMovie): TmdbMovie {
    TmdbMovie(
      m.id,
      Or(m.title, Or(m.originalTitle, "Unknown")),
      ExtractGenres(parse, Or(m.genres, EmptyArray)),
      FormatDuration(Or(m.runtime, "0")),
      m.releaseDate,
      m.overview,
      Or(m.voteAverage, "0"),
      Or(m.voteCount, "0"))
  }

  /** The title is `title` when non-empty, else `original_title` when non-empty, else
      'Unknown'; a missing runtime gives 'N/A'; the vote columns default to '0'. */
  lemma ProcessMovieFacts(parse: JsonReader, m: RawMovie)
    ensures var r := ProcessMovie(parse, m);
      && (m.title != "" ==> r.title == m.title)
      && (m.title == "" && m.originalTitle != "" ==> r.title == m.originalTitle)
      && (m.title == "" && m.originalTitle == "" ==> r.title == "Unknown")
      && r.title != ""
      && (m.runtime == "" ==> r.runtime == NotAvailable)
      && (m.genres == "" ==> r.genres == "")
      && r.voteAverage != "" && r.voteCount != ""
  {
    assert ParseInt("0") == Some(0) by {
      assert LeadingSpaces("0") == 0;
      assert "0"[0..] == "0";
      assert LeadingDigits("0") == 1;
      assert "0"[..1] == "0";
    }
  }

  /** `processTMDBCredit` of lib/tmdb-processor.ts: the movie id is read from the `id`
      column, and the cast and crew texts are kept unparsed. */
  function ProcessCredit(c: RawCredit): TmdbCredit {
    TmdbCredit(c.id, Or(c.cast, EmptyArray), Or(c.crew, EmptyArray))
  }

  /** `processTMDBCredit` of scripts/tmdb-csv-parser.js: the movie id is read from the
      `movie_id` column, and the cast and director names are extracted at once. */
  function ProcessCreditEager(parse: JsonReader, c: RawCredit): TmdbCredit {
    TmdbCredit(c.movieId, ExtractCast(parse, Or(c.cast, EmptyArray)), ExtractDirector(parse, Or(c.crew, EmptyArray)))
  }

  /** The two variants read the movie id from different columns: a credit row that has only a
      `movie_id` gets an empty id from the first. */
  lemma ProcessCreditColumns(parse: JsonReader, c: RawCredit)
    ensures ProcessCredit(c).movieId == c.id
    ensures ProcessCreditEager(parse, c).movieId == c.movieId
    ensures ProcessCredit(c).cast == (if c.cast == "" then EmptyArray else c.cast)
    ensures ProcessCreditEager(parse, c).cast == Join(CastNames(ParseArray(parse, Or(c.cast, EmptyArray))), ListSep)
  {
  }

  /** `combineMovieAndCredit` of lib/tmdb-processor.ts: the record to store, before its user
      id is set. */
  function Combine(parse: JsonReader, m: TmdbMovie, credit: Option<TmdbCredit>): Movie {
    Movie(None, "", m.title,
      Or(m.genres, NotAvailable),
      if credit.Some? then ExtractCast(parse, credit.value.cast) else NotAvailable,
      if credit.Some? then ExtractDirector(parse, credit.value.crew) else NotAvailable,
      Or(m.runtime, NotAvailable),
      None)
  }

  /** `combineMovieAndCredit` of scripts/tmdb-csv-parser.js, whose credits already hold names. */
  function CombineEager(m: TmdbMovie, credit: Option<TmdbCredit>): Movie {
    Movie(None, "", m.title,
      Or(m.genres, NotAvailable),
      if credit.Some? then credit.value.cast else NotAvailable,
      if credit.Some? then credit.value.crew else NotAvailable,
      Or(m.runtime, NotAvailable),
      None)
  }

  /** The title is copied; without a credit the cast and director are 'N/A'; an empty genre or
      runtime becomes 'N/A'; no poster. Combining a credit whose names were extracted at once
      gives the same record as combining the unparsed credit; the variants differ only in the
      id under which the credit is found. */
  lemma CombineFacts(parse: JsonReader, m: TmdbMovie, credit: Option<TmdbCredit>, raw: RawCredit)
    ensures var r := Combine(parse, m, credit);
      && r.title == m.title
      && (credit.None? ==> r.cast == NotAvailable && r.director == NotAvailable)
      && (m.genres == "" ==> r.genre == NotAvailable) && (m.genres != "" ==> r.genre == m.genres)
      && (m.runtime == "" ==> r.duration == NotAvailable) && (m.runtime != "" ==> r.duration == m.runtime)
      && r.posterUrl.None?
    ensures CombineEager(m, Some(ProcessCreditEager(parse, raw))) == Combine(parse, m, Some(ProcessCredit(raw)))
  {
  }

  /** A movie worth storing: a real title, some genre, and a known runtime. */
  predicate IsValid(m: TmdbMovie) {
    m.title != "" && m.title != "Unknown" && m.title != NotAvailable && m.genres != "" && m.runtime != NotAvailable
  }

  /** `filterValidMovies(movies)`. */
  function FilterValid(movies: seq<TmdbMovie>): seq<TmdbMovie> {
    Filter(movies, IsValid)
  }

  /** The valid movies, in their order, and every valid movie. */
  lemma FilterValidFacts(movies: seq<TmdbMovie>)
    ensures forall i :: 0 <= i < |FilterValid(movies)| ==> FilterValid(movies)[i] in movies && IsValid(FilterValid(movies)[i])
    ensures forall m :: m in movies && IsValid(m) ==> m in FilterValid(movies)
    ensures IsSubseq(FilterValid(movies), movies)
  {
    FilterFacts(movies, IsValid);
  }

  /** `creditsMap`: credits by movie id, a later credit replacing an earlier one with the same id. */
  function CreditsMap(credits: seq<TmdbCredit>): map<string, TmdbCredit> {
    if credits == [] then map[]
    else
      var last := credits[|credits| - 1];
      CreditsMap(credits[..|credits| - 1])[last.movieId := last]
  }

  /** An id is a key exactly when some credit has it. */
  lemma {:induction false} CreditsMapKeys(credits: seq<TmdbCredit>)
    ensures forall id :: id in CreditsMap(credits) <==> exists j :: 0 <= j < |credits| && credits[j].movieId == id
  {
    if credits != [] {
      var init := credits[..|credits| - 1];
      CreditsMapKeys(init);
      forall id | id in CreditsMap(credits)
        ensures exists j :: 0 <= j < |credits| && credits[j].movieId == id
      {
        if id in CreditsMap(init) {
          var j :| 0 <= j < |init| && init[j].movieId == id;
          assert credits[j] == init[j];
        }
      }
      forall j | 0 <= j < |credits|
        ensures credits[j].movieId in CreditsMap(credits)
      {
        if j < |init| {
          assert credits[j] == init[j];
        }
      }
    }
  }

  /** An id maps to the last credit carrying it. */
  lemma {:induction false} CreditsMapLastWins(credits: seq<TmdbCredit>, j: nat)
    requires j < |credits|
    requires forall j' :: j < j' < |credits| ==> credits[j'].movieId != credits[j].movieId
    ensures credits[j].movieId in CreditsMap(credits)
    ensures CreditsMap(credits)[credits[j].movieId] == credits[j]
  {
    var last := |credits| - 1;
    if j < last {
      var init := credits[..last];
      assert forall j' :: j < j' < |init| ==> init[j'] == credits[j'];
      CreditsMapLastWins(init, j);
      assert init[j] == credits[j];
    }
  }

  /** The stored record for one valid movie: combined with its credit, if any, and owned by the user. */
  function RecordFor(parse: JsonReader, cm: map<string, TmdbCredit>, userId: string, m: TmdbMovie): Movie {
    var credit := if m.id in cm then Some(cm[m.id]) else None;
    Combine(parse, m, credit).(userId := userId)
  }

  const BatchSize := 50

  /** `creditsMap` filled by `credits.forEach(credit => creditsMap.set(credit.movie_id, credit))`. */
  method BuildCreditsMap(credits: seq<TmdbCredit>) returns (cm: map<string, TmdbCredit>)
    ensures cm == CreditsMap(credits)
  {
    cm := map[];
    for i := 0 to |credits|
      invariant cm == CreditsMap(credits[..i])
    {
      assert credits[..i + 1][..i] == credits[..i];
      cm := cm[credits[i].movieId := credits[i]];
    }
    assert credits[..|credits|] == credits;
  }

  /** The records `populateDatabaseWithTMDB` stores, in order: one per valid movie. */
  function StoredRecords(parse: JsonReader, movies: seq<TmdbMovie>, credits: seq<TmdbCredit>, userId: string): seq<Movie> {
    Map(FilterValid(movies), m => RecordFor(parse, CreditsMap(credits), userId, m))
  }

  /** The inner loop: `batchData` gets the record of each movie of the batch in turn. */
  method BuildBatch(parse: JsonReader, cm: map<string, TmdbCredit>, userId: string, batch: seq<TmdbMovie>)
    returns (batchData: seq<Movie>)
    ensures |batchData| == |batch|
    ensures forall j :: 0 <= j < |batch| ==> batchData[j] == RecordFor(parse, cm, userId, batch[j])
  {
    batchData := [];
    for j := 0 to |batch|
      invariant |batchData| == j
      invariant forall j' :: 0 <= j' < j ==> batchData[j'] == RecordFor(parse, cm, userId, batch[j'])
    {
      var movie := batch[j];
      var credit := if movie.id in cm then Some(cm[movie.id]) else None;
      var record := Combine(parse, movie, credit).(userId := userId);
      batchData := batchData + [record];
    }
  }

  /** The records of the valid movies `i` to `e`, built by the inner loop. */
  method BatchRecords(parse: JsonReader, movies: seq<TmdbMovie>, credits: seq<TmdbCredit>,
                      cm: map<string, TmdbCredit>, userId: string, valid: seq<TmdbMovie>, i: nat, e: nat)
    returns (batchData: seq<Movie>)
    requires cm == CreditsMap(credits) && valid == FilterValid(movies)
    requires i <= e <= |valid|
    ensures e <= |StoredRecords(parse, movies, credits, userId)|
    ensures batchData == StoredRecords(parse, movies, credits, userId)[i..e]
  {
    batchData := BuildBatch(parse, cm, userId, valid[i..e]);
    BatchIsSlice(parse, movies, credits, userId, i, e, batchData);
  }

  /** `populateDatabaseWithTMDB`: the valid movies are combined with their credits and stored in
      batches of 50; a batch counts as a success or as errors as a whole. `insertOk(b, rows)` is
      the store's answer to the insert of batch `b`. */
  method PopulateDatabase(parse: JsonReader, movies: seq<TmdbMovie>, credits: seq<TmdbCredit>, userId: string,
                          insertOk: (nat, seq<Movie>) -> bool)
    returns (success: nat, errors: nat, sent: seq<seq<Movie>>)
    ensures sent == Chunks(StoredRecords(parse, movies, credits, userId), BatchSize)
    ensures success == Succeeded(sent, insertOk) && errors == Failed(sent, insertOk)
  {
    var cm := BuildCreditsMap(credits);
    var valid := FilterValid(movies);
    ghost var rows := StoredRecords(parse, movies, credits, userId);
    StoredRecordsLength(parse, movies, credits, userId);
    success, errors, sent := 0, 0, [];
    var i := 0;
    while i < |valid|
      invariant sent + Chunks(rows[Min(i, |rows|)..], BatchSize) == Chunks(rows, BatchSize)
      invariant success == Succeeded(sent, insertOk) && errors == Failed(sent, insertOk)
      decreases |valid| - i
    {
      var e := Min(i + BatchSize, |valid|);
      var batch := valid[i..e];
      var batchData := BatchRecords(parse, movies, credits, cm, userId, valid, i, e);
      ChunksAdvance(rows, sent, i, batchData, BatchSize);
      TallyStep(sent, batchData, insertOk);
      if insertOk(|sent|, batchData) {
        success := success + |batch|;
      } else {
        errors := errors + |batch|;
      }
      sent := sent + [batchData];
      i := i + BatchSize;
    }
    assert rows[Min(i, |rows|)..] == [];
  }

  lemma StoredRecordsLength(parse: JsonReader, movies: seq<TmdbMovie>, credits: seq<TmdbCredit>, userId: string)
    ensures |StoredRecords(parse, movies, credits, userId)| == |FilterValid(movies)|
  {
    MapFacts(FilterValid(movies), m => RecordFor(parse, CreditsMap(credits), userId, m));
  }

  /** The records built for the movies `i` to `e` of the valid ones are those records of the
      whole run. */
  lemma BatchIsSlice(parse: JsonReader, movies: seq<TmdbMovie>, credits: seq<TmdbCredit>, userId: string,
                     i: nat, e: nat, batchData: seq<Movie>)
    requires i <= e <= |FilterValid(movies)|
    requires |batchData| == e - i
    requires forall j :: 0 <= j < e - i ==>
      batchData[j] == RecordFor(parse, CreditsMap(credits), userId, FilterValid(movies)[i..e][j])
    ensures e <= |StoredRecords(parse, movies, credits, userId)|
    ensures batchData == StoredRecords(parse, movies, credits, userId)[i..e]
  {
    MapFacts(FilterValid(movies), m => RecordFor(parse, CreditsMap(credits), userId, m));
  }

  /** Every valid movie is counted once, as a success or as an error; batches hold at most 50
      records; and the records are the valid movies in order, each with the credit of the last
      credit row carrying its id. */
  lemma PopulateCounts(parse: JsonReader, movies: seq<TmdbMovie>, credits: seq<TmdbCredit>, userId: string,
                       insertOk: (nat, seq<Movie>) -> bool)
    ensures var rows := StoredRecords(parse, movies, credits, userId);
      var sent := Chunks(rows, BatchSize);
      && Succeeded(sent, insertOk) + Failed(sent, insertOk) == |FilterValid(movies)|
      && Flatten(sent) == rows
      && (forall b :: 0 <= b < |sent| ==> 0 < |sent[b]| <= BatchSize)
      && |sent| == (|FilterValid(movies)| + BatchSize - 1) / BatchSize
  {
    var rows := StoredRecords(parse, movies, credits, userId);
    ChunksFlatten(rows, BatchSize);
    ChunksSizes(rows, BatchSize);
    ChunksCount(rows, BatchSize);
    SucceededPlusFailed(Chunks(rows, BatchSize), insertOk);
  }
}
