/** scripts/populate-indian-movies.js: the cleaners applied to each row of the seed catalogue, the
    check a cleaned movie must pass, the filter against titles already stored, and the counters of
    the row loop and of the batched insert. */
module SeedCatalog {
  import opened Base
  import opened JsString
  import opened Seqs

  // ---------------------------------------------------------------------------------------------
  // The three regular-expression rewrites

  predicate IsQuoteMark(c: char) { c == '"' || c == '\'' }

  /** `s.replace(/^["']|["']$/g, '')`: one quote mark goes from the start and one from the end; in
      a one-character string the start pattern takes it first. */
  function StripQuoteMarks(s: string): (r: string)
    ensures |r| <= |s|
  {
    var u := if |s| > 0 && IsQuoteMark(s[0]) then s[1..] else s;
    if |u| > 0 && IsQuoteMark(u[|u| - 1]) then u[..|u| - 1] else u
  }

  /** `s.replace(/\s+/g, ' ')`: every run of white space becomes one space. */
  function CollapseSpaces(s: string): string
    decreases |s|
  {
    if s == [] then []
    else if IsSpace(s[0]) then " " + CollapseSpaces(s[LeadingSpaces(s)..])
    else [s[0]] + CollapseSpaces(s[1..])
  }

  /** The comma-spacing replace, pattern `\s*,\s*` with flag g and replacement ", ": scanning
      from the left, a comma together with the white space on both sides of it becomes ", ".
      A match starts at the first white-space character of
      a run only when the run ends in a comma; otherwise the character is kept and the scan moves
      on by one. */
  function NormalizeCommas(s: string): string
    decreases |s|
  {
    if s == [] then []
    else
      var w := LeadingSpaces(s);
      if w < |s| && s[w] == ',' then ", " + NormalizeCommas(TrimStart(s[w + 1..]))
      else [s[0]] + NormalizeCommas(s[1..])
  }

  /** No white space other than a single space, and never two in a row. */
  predicate SingleSpaced(s: string) {
    forall k :: 0 <= k < |s| && IsSpace(s[k]) ==> s[k] == ' ' && (k + 1 < |s| ==> !IsSpace(s[k + 1]))
  }

  /** A comma is followed by exactly one space and then something other than white space. */
  predicate CommaSpaced(s: string) {
    forall k :: 0 <= k < |s| && s[k] == ',' ==> k + 1 < |s| && s[k + 1] == ' ' && (k + 2 < |s| ==> !IsSpace(s[k + 2]))
  }

  /** White space before a comma is only ever the space of an earlier ", ". */
  predicate SpaceBeforeCommaIsSeparator(s: string) {
    forall k :: 0 < k < |s| && s[k] == ',' && IsSpace(s[k - 1]) ==> k >= 2 && s[k - 1] == ' ' && s[k - 2] == ','
  }

  lemma {:induction false} CollapseSpacesFacts(s: string)
    ensures SingleSpaced(CollapseSpaces(s))
    ensures s == [] <==> CollapseSpaces(s) == []
    ensures s != [] && !IsSpace(s[0]) ==> CollapseSpaces(s)[0] == s[0]
    decreases |s|
  {
    if s != [] {
      var r := CollapseSpaces(s);
      if IsSpace(s[0]) {
        var rest := s[LeadingSpaces(s)..];
        CollapseSpacesFacts(rest);
        var c := CollapseSpaces(rest);
        assert r == " " + c;
        forall k | 0 <= k < |r| && IsSpace(r[k])
          ensures r[k] == ' ' && (k + 1 < |r| ==> !IsSpace(r[k + 1]))
        {
          if k > 0 {
            assert r[k] == c[k - 1];
          } else if k + 1 < |r| {
            assert r[1] == c[0] == rest[0];
          }
        }
      } else {
        CollapseSpacesFacts(s[1..]);
        var c := CollapseSpaces(s[1..]);
        assert r == [s[0]] + c;
        forall k | 0 <= k < |r| && IsSpace(r[k])
          ensures r[k] == ' ' && (k + 1 < |r| ==> !IsSpace(r[k + 1]))
        {
          assert r[k] == c[k - 1];
        }
      }
    }
  }

  /** A white-space run at the front is one longer than the run after its first character. */
  lemma LeadingSpacesStep(s: string)
    requires s != [] && IsSpace(s[0])
    ensures LeadingSpaces(s) == 1 + LeadingSpaces(s[1..])
  {
  }

  lemma {:induction false} NormalizeCommasFront(s: string)
    ensures s == [] <==> NormalizeCommas(s) == []
    ensures s != [] && !IsSpace(s[0]) ==> !IsSpace(NormalizeCommas(s)[0])
    ensures NormalizeCommas(s) != [] && NormalizeCommas(s)[0] == ',' ==>
      LeadingSpaces(s) < |s| && s[LeadingSpaces(s)] == ','
  {
  }

  /** After the rewrite every comma is followed by exactly one space and then by something other
      than white space. */
  lemma {:induction false} NormalizeCommasSpaced(s: string)
    ensures CommaSpaced(NormalizeCommas(s))
    decreases |s|
  {
    if s != [] {
      var r := NormalizeCommas(s);
      var w := LeadingSpaces(s);
      if w < |s| && s[w] == ',' {
        var rest := TrimStart(s[w + 1..]);
        NormalizeCommasSpaced(rest);
        NormalizeCommasFront(rest);
        var c := NormalizeCommas(rest);
        assert r == ", " + c;
        forall k | 0 <= k < |r| && r[k] == ','
          ensures k + 1 < |r| && r[k + 1] == ' ' && (k + 2 < |r| ==> !IsSpace(r[k + 2]))
        {
          if k >= 2 {
            assert r[k] == c[k - 2];
          } else if k + 2 < |r| {
            assert r[2] == c[0];
          }
        }
      } else {
        var c := NormalizeCommas(s[1..]);
        NormalizeCommasSpaced(s[1..]);
        assert r == [s[0]] + c;
        forall k | 0 <= k < |r| && r[k] == ','
          ensures k + 1 < |r| && r[k + 1] == ' ' && (k + 2 < |r| ==> !IsSpace(r[k + 2]))
        {
          assert r[k] == c[k - 1];
        }
      }
    }
  }

  /** After the rewrite, white space stands before a comma only as the space of a ", ". */
  lemma {:induction false} NormalizeCommasSeparator(s: string)
    ensures SpaceBeforeCommaIsSeparator(NormalizeCommas(s))
    decreases |s|
  {
    if s != [] {
      var r := NormalizeCommas(s);
      var w := LeadingSpaces(s);
      if w < |s| && s[w] == ',' {
        var rest := TrimStart(s[w + 1..]);
        NormalizeCommasSeparator(rest);
        var c := NormalizeCommas(rest);
        assert r == ", " + c;
        forall k | 0 < k < |r| && r[k] == ',' && IsSpace(r[k - 1])
          ensures k >= 2 && r[k - 1] == ' ' && r[k - 2] == ','
        {
          if k > 2 {
            assert r[k] == c[k - 2] && r[k - 1] == c[k - 3];
          }
        }
      } else {
        NormalizeCommasSeparator(s[1..]);
        NormalizeCommasFront(s[1..]);
        var c := NormalizeCommas(s[1..]);
        assert r == [s[0]] + c;
        if |r| > 1 && r[1] == ',' && IsSpace(r[0]) {
          LeadingSpacesStep(s);
          assert false;
        }
        forall k | 1 < k < |r| && r[k] == ',' && IsSpace(r[k - 1])
          ensures k >= 2 && r[k - 1] == ' ' && r[k - 2] == ','
        {
          assert r[k] == c[k - 1] && r[k - 1] == c[k - 2];
        }
      }
    }
  }

  /** Both properties survive trimming. */
  lemma CommaPropertiesSlice(r: string, i: nat, j: nat)
    requires i <= j <= |r| && NoOuterSpace(r[i..j])
    requires CommaSpaced(r) && SpaceBeforeCommaIsSeparator(r)
    ensures var g := r[i..j];
      && (forall k :: 0 <= k && k + 1 < |g| && g[k] == ',' ==> g[k + 1] == ' ' && (k + 2 < |g| ==> !IsSpace(g[k + 2])))
      && SpaceBeforeCommaIsSeparator(g)
  {
    var g := r[i..j];
    forall k | 0 <= k && k + 1 < |g| && g[k] == ','
      ensures g[k + 1] == ' ' && (k + 2 < |g| ==> !IsSpace(g[k + 2]))
    {
      assert r[i + k] == ',';
      assert g[k + 1] == r[i + k + 1];
      if k + 2 < |g| {
        assert g[k + 2] == r[i + k + 2];
      }
    }
    forall k | 0 < k < |g| && g[k] == ',' && IsSpace(g[k - 1])
      ensures k >= 2 && g[k - 1] == ' ' && g[k - 2] == ','
    {
      assert g[k] == r[i + k] && g[k - 1] == r[i + k - 1];
      assert k >= 2;
      assert g[k - 2] == r[i + k - 2];
    }
  }

  // ---------------------------------------------------------------------------------------------
  // The cleaners. A cell is `None` when the row has no such column; `!cell` holds for `None` and
  // for the empty string.

  predicate Missing(cell: Option<string>) { cell.None? || cell.value == "" }

  const UnknownTitle := "Unknown"
  const NotAvailable := "N/A"

  /** `cleanTitle(title)`. */
  function CleanTitle(title: Option<string>): string {
    if Missing(title) then UnknownTitle
    else Trim(CollapseSpaces(StripQuoteMarks(Trim(title.value))))
  }

  /** `cleanDirector(director)`: the title's cleaning, with 'N/A' for a missing value. */
  function CleanDirector(director: Option<string>): string {
    if Missing(director) then NotAvailable
    else Trim(CollapseSpaces(StripQuoteMarks(Trim(director.value))))
  }

  /** A slice of a single-spaced string is single-spaced. */
  lemma SingleSpacedSlice(s: string, i: nat, j: nat)
    requires i <= j <= |s| && SingleSpaced(s)
    ensures SingleSpaced(s[i..j])
  {
    var t := s[i..j];
    forall k | 0 <= k < |t| && IsSpace(t[k]) ensures t[k] == ' ' && (k + 1 < |t| ==> !IsSpace(t[k + 1])) {
      assert t[k] == s[i + k];
      if k + 1 < |t| {
        assert t[k + 1] == s[i + k + 1];
      }
    }
  }

  lemma TrimKeepsSingleSpaced(s: string)
    requires SingleSpaced(s)
    ensures SingleSpaced(Trim(s))
  {
    TrimFacts(s);
    var i, j :| 0 <= i <= j <= |s| && Trim(s) == s[i..j];
    SingleSpacedSlice(s, i, j);
  }

  /** A missing title becomes 'Unknown'; any other title comes out trimmed, with each run of
      white space turned into one space. */
  lemma CleanTitleFacts(title: Option<string>)
    ensures Missing(title) ==> CleanTitle(title) == UnknownTitle
    ensures !Missing(title) ==> NoOuterSpace(CleanTitle(title)) && SingleSpaced(CleanTitle(title))
  {
    if !Missing(title) {
      var c := CollapseSpaces(StripQuoteMarks(Trim(title.value)));
      CollapseSpacesFacts(StripQuoteMarks(Trim(title.value)));
      TrimKeepsSingleSpaced(c);
    }
  }

  /** The director is cleaned the same way, with 'N/A' for a missing one. */
  lemma CleanDirectorFacts(director: Option<string>)
    ensures Missing(director) ==> CleanDirector(director) == NotAvailable
    ensures !Missing(director) ==> NoOuterSpace(CleanDirector(director)) && SingleSpaced(CleanDirector(director))
    ensures !Missing(director) ==> CleanDirector(director) == CleanTitle(director)
  {
    CleanTitleFacts(director);
  }

  /** `cleanGenre(genre)`. */
  function CleanGenre(genre: Option<string>): string {
    if Missing(genre) then NotAvailable
    else Trim(NormalizeCommas(StripQuoteMarks(Trim(genre.value))))
  }

  /** A missing genre becomes 'N/A'. Otherwise the text is trimmed; every comma but a final one is
      followed by exactly one space and then by something other than white space; and white space
      comes right before a comma only as the space of a ", " just before it (so ",," gives
      ", ,"). */
  lemma CleanGenreFacts(genre: Option<string>)
    ensures Missing(genre) ==> CleanGenre(genre) == NotAvailable
    ensures !Missing(genre) ==> var g := CleanGenre(genre);
      && NoOuterSpace(g)
      && (forall k :: 0 <= k && k + 1 < |g| && g[k] == ',' ==> g[k + 1] == ' ' && (k + 2 < |g| ==> !IsSpace(g[k + 2])))
      && SpaceBeforeCommaIsSeparator(g)
  {
    if !Missing(genre) {
      var r := NormalizeCommas(StripQuoteMarks(Trim(genre.value)));
      NormalizeCommasSpaced(StripQuoteMarks(Trim(genre.value)));
      NormalizeCommasSeparator(StripQuoteMarks(Trim(genre.value)));
      TrimFacts(r);
      var i, j :| 0 <= i <= j <= |r| && Trim(r) == r[i..j];
      CommaPropertiesSlice(r, i, j);
    }
  }

  /** The genre ",," is cleaned to ", ,": white space can stand before a comma. */
  lemma CleanGenreDoubleComma()
    ensures CleanGenre(Some(",,")) == ", ,"
  {
    assert NoOuterSpace(",,");
    TrimFacts(",,");
    assert StripQuoteMarks(",,") == ",,";
    assert LeadingSpaces(",,") == 0;
    assert TrimStart(",,"[1..]) == ",";
    assert LeadingSpaces(",") == 0;
    assert TrimStart(","[1..]) == "";
    assert NormalizeCommas(",") == ", ";
    assert NormalizeCommas(",,") == ", , ";
    assert TrimStart(", , ") == ", , ";
    assert TrimEnd(", , ") == ", ,";
  }

  /** `cleanYear(year)`, with `currentYear` for `new Date().getFullYear()`. */
  function CleanYear(year: Option<string>, currentYear: int): (r: Option<int>)
    ensures r.Some? ==> 1900 <= r.value <= currentYear
  {
    if Missing(year) then None
    else match ParseInt(year.value)
      case None => None
      case Some(n) => if 1900 <= n <= currentYear then Some(n) else None
  }

  /** A year is kept exactly when it reads as a number from 1900 to the current year. */
  lemma CleanYearFacts(year: Option<string>, currentYear: int)
    ensures CleanYear(year, currentYear).Some? <==>
      !Missing(year) && ParseInt(year.value).Some? && 1900 <= ParseInt(year.value).value <= currentYear
    ensures CleanYear(year, currentYear).Some? ==> CleanYear(year, currentYear).value == ParseInt(year.value).value
  {
  }

  /** `cleanDuration(duration)`. */
  function CleanDuration(duration: Option<string>): Option<string> {
    if Missing(duration) then None
    else match ParseInt(duration.value)
      case None => None
      case Some(n) => if 0 < n < 1000 then Some(IntToString(n) + " min") else None
  }

  /** A duration is kept, as "<n> min", exactly when it reads as a number n with 0 < n < 1000;
      `parseInt` reads the same n back from the result, so cleaning twice changes nothing. */
  lemma CleanDurationFacts(duration: Option<string>)
    ensures CleanDuration(duration).Some? <==>
      !Missing(duration) && ParseInt(duration.value).Some? && 0 < ParseInt(duration.value).value < 1000
    ensures CleanDuration(duration).Some? ==>
      var n := ParseInt(duration.value).value;
      && CleanDuration(duration).value == IntToString(n) + " min"
      && ParseInt(CleanDuration(duration).value) == Some(n)
      && CleanDuration(CleanDuration(duration)) == CleanDuration(duration)
  {
    if CleanDuration(duration).Some? {
      ParseIntOfMinutes(ParseInt(duration.value).value);
    }
  }

  /** `cleanVotes(votes)`. */
  function CleanVotes(votes: Option<string>): nat {
    if Missing(votes) then 0
    else match ParseInt(votes.value)
      case None => 0
      case Some(n) => if n >= 0 then n else 0
  }

  /** The votes are the number read when it is not negative, and 0 otherwise, also when nothing
      reads as a number. */
  lemma CleanVotesFacts(votes: Option<string>)
    ensures !Missing(votes) && ParseInt(votes.value).Some? && ParseInt(votes.value).value >= 0 ==>
      CleanVotes(votes) == ParseInt(votes.value).value
    ensures Missing(votes) || ParseInt(votes.value).None? || ParseInt(votes.value).value < 0 ==> CleanVotes(votes) == 0
  {
  }

  /** Present and not blank: `actor && actor.trim() !== ''`. */
  predicate NamedActor(actor: Option<string>) {
    actor.Some? && Trim(actor.value) != ""
  }

  /** One actor's name: trimmed, quote marks removed, white space collapsed (not trimmed again). */
  function CleanActor(actor: Option<string>): string
    requires actor.Some?
  {
    CollapseSpaces(StripQuoteMarks(Trim(actor.value)))
  }

  /** The cleaned names of the actors that are present and not blank, in order. */
  function Actors(actor1: Option<string>, actor2: Option<string>, actor3: Option<string>): (r: seq<string>)
    ensures |r| <= 3
  {
    (if NamedActor(actor1) then [CleanActor(actor1)] else [])
    + (if NamedActor(actor2) then [CleanActor(actor2)] else [])
    + (if NamedActor(actor3) then [CleanActor(actor3)] else [])
  }

  /** `cleanCast(actor1, actor2, actor3)`. */
  function CleanCast(actor1: Option<string>, actor2: Option<string>, actor3: Option<string>): string {
    var actors := Actors(actor1, actor2, actor3);
    if |actors| > 0 then Join(actors, ", ") else NotAvailable
  }

  /** Joining two or more names puts a comma in the text. */
  lemma JoinSeveralHasComma(parts: seq<string>)
    requires |parts| >= 2
    ensures ',' in Join(parts, ", ")
  {
    var j := Join(parts, ", ");
    assert j == parts[0] + ", " + Join(parts[1..], ", ");
    assert j[|parts[0]|] == ',';
  }

  /** At most three names, none of a missing or blank actor; the cast is 'N/A' exactly when no
      actor is named, or when the one named actor is literally called 'N/A'. */
  lemma CleanCastFacts(actor1: Option<string>, actor2: Option<string>, actor3: Option<string>)
    ensures |Actors(actor1, actor2, actor3)| == 0 <==> !NamedActor(actor1) && !NamedActor(actor2) && !NamedActor(actor3)
    ensures forall a :: a in Actors(actor1, actor2, actor3) ==> SingleSpaced(a)
    ensures CleanCast(actor1, actor2, actor3) == NotAvailable <==>
      |Actors(actor1, actor2, actor3)| == 0 || Actors(actor1, actor2, actor3) == [NotAvailable]
  {
    var actors := Actors(actor1, actor2, actor3);
    if NamedActor(actor1) { CollapseSpacesFacts(StripQuoteMarks(Trim(actor1.value))); }
    if NamedActor(actor2) { CollapseSpacesFacts(StripQuoteMarks(Trim(actor2.value))); }
    if NamedActor(actor3) { CollapseSpacesFacts(StripQuoteMarks(Trim(actor3.value))); }
    if |actors| >= 2 {
      JoinSeveralHasComma(actors);
      assert ',' !in NotAvailable;
    }
  }

  // ---------------------------------------------------------------------------------------------
  // Rows, movies and the check

  /** The columns of a `movies_data.csv` row the script reads. */
  datatype SeedRow = SeedRow(
    name: Option<string>, genre: Option<string>, director: Option<string>,
    actor1: Option<string>, actor2: Option<string>, actor3: Option<string>, duration: Option<string>)

  /** The movie object built for a row; `duration` is `null` when it did not clean. */
  datatype SeedMovie = SeedMovie(
    title: string, genre: string, director: string, cast: string, duration: Option<string>, userId: string)

  /** The owner of the seed catalogue. */
  const SystemUser := "00000000-0000-0000-0000-000000000000"

  function SeedOf(row: SeedRow): SeedMovie {
    SeedMovie(CleanTitle(row.name), CleanGenre(row.genre), CleanDirector(row.director),
              CleanCast(row.actor1, row.actor2, row.actor3), CleanDuration(row.duration), SystemUser)
  }

  /** `validateMovie(movie)`. */
  predicate ValidSeed(m: SeedMovie) {
    !(m.title == "" || m.title == UnknownTitle)
    && !(m.director == NotAvailable && m.cast == NotAvailable && m.genre == NotAvailable)
  }

  /** A row is dropped when it has no name, and when its director, actors and genre are all
      missing; a row whose name cleans to a real title and which has a genre, a director or a
      named actor whose cleaned text is not 'N/A' is kept. */
  lemma SeedRowFacts(row: SeedRow)
    ensures Missing(row.name) ==> !ValidSeed(SeedOf(row))
    ensures (Missing(row.director) && Missing(row.genre) &&
             !NamedActor(row.actor1) && !NamedActor(row.actor2) && !NamedActor(row.actor3))
            ==> !ValidSeed(SeedOf(row))
    ensures (CleanTitle(row.name) !in {"", UnknownTitle} &&
             (CleanGenre(row.genre) != NotAvailable || CleanDirector(row.director) != NotAvailable ||
              CleanCast(row.actor1, row.actor2, row.actor3) != NotAvailable))
            ==> ValidSeed(SeedOf(row))
  {
  }

  // ---------------------------------------------------------------------------------------------
  // The script's loops

  /** The `data` handler over all rows: every row is counted, and the valid movies are kept in order. */
  method ReadSeedRows(rows: seq<SeedRow>) returns (movies: seq<SeedMovie>, processed: nat, valid: nat, invalid: nat)
    ensures movies == Filter(Map(rows, SeedOf), ValidSeed)
    ensures processed == |rows| && valid == |movies| && invalid == processed - valid
  {
    movies, processed, valid, invalid := [], 0, 0, 0;
    for i := 0 to |rows|
      invariant movies == Filter(Map(rows[..i], SeedOf), ValidSeed)
      invariant processed == i && valid == |movies| && invalid == processed - valid
    {
      MapStep(rows, SeedOf, i);
      assert Map(rows[..i + 1], SeedOf)[..i] == Map(rows[..i], SeedOf);
      processed := processed + 1;
      var movie := SeedOf(rows[i]);
      if ValidSeed(movie) {
        movies := movies + [movie];
        valid := valid + 1;
      } else {
        invalid := invalid + 1;
      }
    }
    assert rows[..|rows|] == rows;
  }

  /** `newMovies`: the movies whose lower-cased title is not among the lower-cased stored titles. */
  function NewMovies(movies: seq<SeedMovie>, existing: seq<string>): seq<SeedMovie> {
    var existingTitles := Image(existing, ToLower);
    Filter(movies, (m: SeedMovie) => ToLower(m.title) !in existingTitles)
  }

  /** A movie is new exactly when no stored title equals its title up to ASCII case, and the new
      movies keep their order. */
  lemma NewMoviesFacts(movies: seq<SeedMovie>, existing: seq<string>)
    ensures IsSubseq(NewMovies(movies, existing), movies)
    ensures forall m :: m in NewMovies(movies, existing) <==>
      m in movies && forall e :: e in existing ==> ToLower(e) != ToLower(m.title)
  {
    var existingTitles := Image(existing, ToLower);
    FilterFacts(movies, (m: SeedMovie) => ToLower(m.title) !in existingTitles);
    forall m: SeedMovie ensures ToLower(m.title) in existingTitles <==> exists e :: e in existing && ToLower(e) == ToLower(m.title) {
      ImageMembership(existing, ToLower, ToLower(m.title));
    }
  }

  const SeedBatchSize := 100

  /** The insert loop: batches of 100 new movies; `insertOk(b, batch)` is the store's answer to
      batch `b` (an error or an exception is `false`), and a batch counts as a whole. */
  method InsertSeedMovies(newMovies: seq<SeedMovie>, insertOk: (nat, seq<SeedMovie>) -> bool)
    returns (inserted: nat, errors: nat, sent: seq<seq<SeedMovie>>)
    ensures sent == Chunks(newMovies, SeedBatchSize)
    ensures inserted == Succeeded(sent, insertOk) && errors == Failed(sent, insertOk)
  {
    inserted, errors, sent := 0, 0, [];
    var i := 0;
    while i < |newMovies|
      invariant sent + Chunks(newMovies[Min(i, |newMovies|)..], SeedBatchSize) == Chunks(newMovies, SeedBatchSize)
      invariant inserted == Succeeded(sent, insertOk) && errors == Failed(sent, insertOk)
      decreases |newMovies| - i
    {
      var batch := newMovies[i..Min(i + SeedBatchSize, |newMovies|)];
      ChunksAdvance(newMovies, sent, i, batch, SeedBatchSize);
      TallyStep(sent, batch, insertOk);
      if insertOk(|sent|, batch) {
        inserted := inserted + |batch|;
      } else {
        errors := errors + |batch|;
      }
      sent := sent + [batch];
      i := i + SeedBatchSize;
    }
    assert newMovies[Min(i, |newMovies|)..] == [];
  }

  /** Every new movie is counted once, inserted or failed, in ceil(n / 100) batches of at most 100. */
  lemma InsertCounts(newMovies: seq<SeedMovie>, insertOk: (nat, seq<SeedMovie>) -> bool)
    ensures var sent := Chunks(newMovies, SeedBatchSize);
      && Succeeded(sent, insertOk) + Failed(sent, insertOk) == |newMovies|
      && |sent| == (|newMovies| + SeedBatchSize - 1) / SeedBatchSize
      && forall b :: 0 <= b < |sent| ==> 0 < |sent[b]| <= SeedBatchSize
  {
    var sent := Chunks(newMovies, SeedBatchSize);
    SucceededPlusFailed(sent, insertOk);
    ChunksFlatten(newMovies, SeedBatchSize);
    ChunksCount(newMovies, SeedBatchSize);
    ChunksSizes(newMovies, SeedBatchSize);
  }

  /** `populateIndianMovies` after the file has been read: it stops with nothing inserted when no
      row is valid, when the stored titles cannot be read, or when every movie is already stored. */
  method PopulateSeedCatalog(rows: seq<SeedRow>, existing: Fetch<seq<string>>,
                             insertOk: (nat, seq<SeedMovie>) -> bool)
    returns (inserted: nat, errors: nat)
    ensures var movies := Filter(Map(rows, SeedOf), ValidSeed);
      if movies == [] || existing.FetchError? then inserted == 0 && errors == 0
      else
        var sent := Chunks(NewMovies(movies, existing.rows), SeedBatchSize);
        && inserted == Succeeded(sent, insertOk) && errors == Failed(sent, insertOk)
        && inserted + errors == |NewMovies(movies, existing.rows)|
  {
    var movies, processed, valid, invalid := ReadSeedRows(rows);
    if valid == 0 {
      return 0, 0;
    }
    if existing.FetchError? {
      return 0, 0;
    }
    var newMovies := NewMovies(movies, existing.rows);
    if |newMovies| == 0 {
      return 0, 0;
    }
    var sent;
    inserted, errors, sent := InsertSeedMovies(newMovies, insertOk);
    InsertCounts(newMovies, insertOk);
  }
}
