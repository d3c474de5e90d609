/** The upload page of app/page.tsx: the checks on the chosen file, the table preview of the
    parsed rows, and `fetchAndStoreMetadata`, which looks every distinct viewing-history title up
    in the metadata store, fetches and stores the missing ones, 25 titles at a time. */
module Enrichment {
  import opened Base
  import opened JsString
  import opened Seqs
  import opened Dicts
  import opened Catalog
  import CsvTitles
  import TitleCleaner

  // ---------------------------------------------------------------------------------------------
  // The file check

  /** The parts of a browser `File` the check reads. */
  datatype UploadFile = UploadFile(name: string, mimeType: string, size: nat)

  const ExtensionError := "File must have a .csv extension"
  const MimeTypeError := "Invalid file type. Please upload a CSV file"
  const SizeError := "File size must be less than 10MB"

  const CsvMimeTypes: seq<string> := ["text/csv", "text/plain", "application/csv"]
  const MaxFileSize: nat := 10 * 1024 * 1024

  /** `validateCSVFile(file)`: the message of the first check that fails, or `None`. */
  function ValidateFile(f: UploadFile): Option<string> {
    if !EndsWith(ToLower(f.name), ".csv") then Some(ExtensionError)
    else if f.mimeType !in CsvMimeTypes && f.mimeType != "" then Some(MimeTypeError)
    else if f.size > MaxFileSize then Some(SizeError)
    else None
  }

  /** A file passes exactly when its lower-cased name ends in ".csv", its type is empty or one of
      the three CSV types, and it holds at most 10 MiB; otherwise the first failing check, in
      that order, gives the message. */
  lemma ValidateFileFacts(f: UploadFile)
    ensures var suffixOk := EndsWith(ToLower(f.name), ".csv");
      var typeOk := f.mimeType == "" || f.mimeType in CsvMimeTypes;
      && (ValidateFile(f).None? <==> suffixOk && typeOk && f.size <= 10485760)
      && (!suffixOk ==> ValidateFile(f) == Some(ExtensionError))
      && (suffixOk && !typeOk ==> ValidateFile(f) == Some(MimeTypeError))
      && (suffixOk && typeOk && f.size > 10485760 ==> ValidateFile(f) == Some(SizeError))
  {
  }

  // ---------------------------------------------------------------------------------------------
  // The preview table

  const Dash := "—"

  /** `row[header] || '—'`. */
  function PreviewCell(row: CsvTitles.Row, header: string): string {
    if header in row && row[header] != "" then row[header] else Dash
  }

  function PreviewRow(headers: seq<string>, row: CsvTitles.Row): seq<string> {
    Map(headers, h => PreviewCell(row, h))
  }

  /** `parseCSVPreview(data, headers)`: the header row, then the first four records laid out
      under the headers. */
  function Preview(data: seq<CsvTitles.Row>, headers: seq<string>): seq<seq<string>> {
    [headers] + Map(Take(data, 4), row => PreviewRow(headers, row))
  }

  /** The preview has the header row and at most four more, each as long as the header row; a cell
      shows the record's value under that header, or a dash when the value is missing or empty. */
  lemma PreviewFacts(data: seq<CsvTitles.Row>, headers: seq<string>)
    ensures |Preview(data, headers)| == 1 + Min(|data|, 4)
    ensures Preview(data, headers)[0] == headers
    ensures forall i :: 1 <= i < |Preview(data, headers)| ==> |Preview(data, headers)[i]| == |headers|
    ensures forall i, j :: 1 <= i < |Preview(data, headers)| && 0 <= j < |headers| ==>
      Preview(data, headers)[i][j] ==
        if headers[j] in data[i - 1] && data[i - 1][headers[j]] != "" then data[i - 1][headers[j]] else Dash
  {
    var rows := Take(data, 4);
    MapFacts(rows, row => PreviewRow(headers, row));
    forall i | 0 <= i < |rows| {
      PreviewRowFacts(headers, rows[i]);
    }
  }

  lemma PreviewRowFacts(headers: seq<string>, row: CsvTitles.Row)
    ensures |PreviewRow(headers, row)| == |headers|
    ensures forall j :: 0 <= j < |headers| ==> PreviewRow(headers, row)[j] == PreviewCell(row, headers[j])
  {
    MapFacts(headers, h => PreviewCell(row, h));
  }

  // ---------------------------------------------------------------------------------------------
  // De-duplication by cleaned title

  /** `cleanedTitleMap` after the titles so far, with `clean` the title cleaner: each cleaned
      title is set, on its first occurrence only, to the original title that produced it. */
  function DedupOf(titles: seq<string>, clean: string -> string): Dict<string> {
    if titles == [] then Empty()
    else
      var d := DedupOf(titles[..|titles| - 1], clean);
      var cleaned := clean(titles[|titles| - 1]);
      if cleaned in d.vals then d else Put(d, cleaned, titles[|titles| - 1])
  }

  /** The cleaned keys are the distinct cleaned titles in order of first occurrence, each with a
      value, and the dictionary is well formed. */
  lemma {:induction false} DedupKeys(titles: seq<string>, clean: string -> string)
    ensures Valid(DedupOf(titles, clean))
    ensures DedupOf(titles, clean).keys == Distinct(Map(titles, clean))
  {
    if titles != [] {
      var init := titles[..|titles| - 1];
      DedupKeys(init, clean);
      DistinctFacts(Map(init, clean));
      var d := DedupOf(init, clean);
      var c := clean(titles[|titles| - 1]);
      if c !in d.vals {
        assert c !in d.keys;
        forall i, j | 0 <= i < j < |d.keys| + 1 ensures (d.keys + [c])[i] != (d.keys + [c])[j] {
          if j < |d.keys| {
            assert (d.keys + [c])[i] == d.keys[i] && (d.keys + [c])[j] == d.keys[j];
          } else {
            assert (d.keys + [c])[i] == d.keys[i];
          }
        }
      }
    }
  }

  /** `titles[i]` is the first title whose cleaned form is `key`. */
  predicate FirstWithKey(titles: seq<string>, clean: string -> string, i: int, key: string) {
    0 <= i < |titles| && clean(titles[i]) == key &&
    forall i' :: 0 <= i' < i ==> clean(titles[i']) != key
  }

  /** Each cleaned title is mapped to the first original title that produced it. */
  lemma {:induction false} DedupFirst(titles: seq<string>, clean: string -> string, i: nat)
    requires i < |titles| && FirstWithKey(titles, clean, i, clean(titles[i]))
    ensures clean(titles[i]) in DedupOf(titles, clean).vals
    ensures DedupOf(titles, clean).vals[clean(titles[i])] == titles[i]
    decreases |titles|
  {
    var init := titles[..|titles| - 1];
    var c := clean(titles[i]);
    if i < |titles| - 1 {
      assert init[i] == titles[i];
      assert forall j :: 0 <= j < i ==> init[j] == titles[j];
      DedupFirst(init, clean, i);
    } else {
      DedupAbsent(init, clean, c);
    }
  }

  /** A cleaned title that no earlier title produced is not yet a key. */
  lemma {:induction false} DedupAbsent(titles: seq<string>, clean: string -> string, c: string)
    requires forall j :: 0 <= j < |titles| ==> clean(titles[j]) != c
    ensures c !in DedupOf(titles, clean).vals
    decreases |titles|
  {
    if titles != [] {
      var init := titles[..|titles| - 1];
      assert forall j :: 0 <= j < |init| ==> init[j] == titles[j];
      DedupAbsent(init, clean, c);
    }
  }

  /** `Array.from(cleanedTitleMap.entries())`: (cleaned title, original title) pairs in key order. */
  function Entries(d: Dict<string>): (es: seq<(string, string)>)
    requires Valid(d)
    ensures |es| == |d.keys|
  {
    seq(|d.keys|, j requires 0 <= j < |d.keys| => (d.keys[j], d.vals[d.keys[j]]))
  }

  /** The (cleaned, original) pairs `fetchAndStoreMetadata` works through. */
  function UniqueTitles(titles: seq<string>): seq<(string, string)> {
    DedupKeys(titles, TitleCleaner.Clean);
    Entries(DedupOf(titles, TitleCleaner.Clean))
  }

  /** The loop of `fetchAndStoreMetadata` that fills `cleanedTitleMap`, then its entries. */
  method DedupTitles(titles: seq<string>) returns (unique: seq<(string, string)>)
    ensures unique == UniqueTitles(titles)
  {
    var cleanedTitleMap: Dict<string> := Empty();
    for i := 0 to |titles|
      invariant cleanedTitleMap == DedupOf(titles[..i], TitleCleaner.Clean)
    {
      DedupStep(titles, TitleCleaner.Clean, i);
      var cleaned := TitleCleaner.Clean(titles[i]);
      if cleaned !in cleanedTitleMap.vals {
        cleanedTitleMap := Put(cleanedTitleMap, cleaned, titles[i]);
      }
    }
    assert titles[..|titles|] == titles;
    DedupKeys(titles, TitleCleaner.Clean);
    unique := Entries(cleanedTitleMap);
  }

  lemma DedupStep(titles: seq<string>, clean: string -> string, i: nat)
    requires i < |titles|
    ensures DedupOf(titles[..i + 1], clean) ==
      var d := DedupOf(titles[..i], clean);
      if clean(titles[i]) in d.vals then d else Put(d, clean(titles[i]), titles[i])
  {
    assert titles[..i + 1][..i] == titles[..i];
  }

  /** Every distinct cleaned title is processed once, in order of first occurrence, together with
      the first original title that produced it. */
  lemma UniqueTitlesFacts(titles: seq<string>)
    ensures Map(UniqueTitles(titles), (e: (string, string)) => e.0) == Distinct(Map(titles, TitleCleaner.Clean))
    ensures forall j :: 0 <= j < |UniqueTitles(titles)| ==>
      exists i :: FirstWithKey(titles, TitleCleaner.Clean, i, UniqueTitles(titles)[j].0) && UniqueTitles(titles)[j].1 == titles[i]
  {
    EntriesFacts(titles, TitleCleaner.Clean);
  }

  lemma EntriesFacts(titles: seq<string>, clean: string -> string)
    ensures Valid(DedupOf(titles, clean))
    ensures Map(Entries(DedupOf(titles, clean)), (e: (string, string)) => e.0) == Distinct(Map(titles, clean))
    ensures forall j :: 0 <= j < |Entries(DedupOf(titles, clean))| ==>
      exists i :: FirstWithKey(titles, clean, i, Entries(DedupOf(titles, clean))[j].0) &&
        Entries(DedupOf(titles, clean))[j].1 == titles[i]
  {
    DedupKeys(titles, clean);
    var d := DedupOf(titles, clean);
    var u := Entries(d);
    MapFacts(u, (e: (string, string)) => e.0);
    var cs := Map(titles, clean);
    MapFacts(titles, clean);
    DistinctFacts(cs);
    forall j | 0 <= j < |u|
      ensures exists i :: FirstWithKey(titles, clean, i, u[j].0) && u[j].1 == titles[i]
    {
      var c := u[j].0;
      assert c in cs;
      var p := (t: string) => clean(t) == c;
      FirstIndexFacts(titles, p);
      assert FirstIndex(titles, p).Some? by {
        var k :| 0 <= k < |cs| && cs[k] == c;
        assert p(titles[k]);
      }
      var i := FirstIndex(titles, p).value;
      DedupFirst(titles, clean, i);
    }
  }

  // ---------------------------------------------------------------------------------------------
  // The metadata store and `processTitle`

  /** The fields of a metadata provider answer that become a record. */
  datatype Details = Details(genre: string, actors: string, director: string, runtime: string, poster: string)

  /** The record `processTitle` inserts: it carries the original title, not the cleaned one, and
      no poster when the provider has none. */
  function NewRecord(userId: string, original: string, d: Details): (m: Movie)
    ensures m.userId == userId && m.title == original
    ensures m.posterUrl.None? <==> d.poster == "N/A"
    ensures m.posterUrl.Some? ==> m.posterUrl.value == d.poster
    ensures m.genre == d.genre && m.cast == d.actors && m.director == d.director && m.duration == d.runtime
  {
    Movie(None, userId, original, d.genre, d.actors, d.director, d.runtime,
          if d.poster != "N/A" then Some(d.poster) else None)
  }

  predicate Owns(m: Movie, title: string, userId: string) {
    m.title == title && m.userId == userId
  }

  /** What `.eq('title', title).eq('user_id', userId).single()` answers on `rows`: the row, when
      exactly one row has that title and user; `.single()` answers no data for none and for
      several. */
  function SingleRow(rows: seq<Movie>, title: string, userId: string): Option<Movie> {
    var matches := Filter(rows, m => Owns(m, title, userId));
    if |matches| == 1 then Some(matches[0]) else None
  }

  /** One `processTitle(cleanedTitle, originalTitle)` on the rows `rows`: its result and the rows
      after it. The provider's lookup by cleaned title is `fetch` (`None` when it throws);
      `accept(rows, record)` is whether the store takes the insert. */
  function TitleOutcome(rows: seq<Movie>, cleaned: string, original: string, userId: string,
                        fetch: string -> Option<Details>, accept: (seq<Movie>, Movie) -> bool)
    : (Option<Movie>, seq<Movie>)
  {
    var existing := SingleRow(rows, original, userId);
    if existing.Some? then (existing, rows)
    else if fetch(cleaned).None? then (None, rows)
    else
      var record := NewRecord(userId, original, fetch(cleaned).value);
      if accept(rows, record) then (Some(record), rows + [record]) else (None, rows)
  }

  /** A title gets a record exactly when it already had a single row of the user's, or its
      details were fetched and the store took the new record; the record is the user's under the
      original title; the rows grow by that record when it is new and are otherwise unchanged. */
  lemma TitleOutcomeFacts(rows: seq<Movie>, cleaned: string, original: string, userId: string,
                          fetch: string -> Option<Details>, accept: (seq<Movie>, Movie) -> bool)
    ensures var (r, rows') := TitleOutcome(rows, cleaned, original, userId, fetch, accept);
      && (r.Some? <==>
            |Filter(rows, m => Owns(m, original, userId))| == 1 ||
            (fetch(cleaned).Some? && accept(rows, NewRecord(userId, original, fetch(cleaned).value))))
      && (r.Some? ==> Owns(r.value, original, userId))
      && (|Filter(rows, m => Owns(m, original, userId))| == 1 ==> r.Some? && r.value in rows)
      && rows' == if r.Some? && |Filter(rows, m => Owns(m, original, userId))| != 1 then rows + [r.value] else rows
  {
    FilterFacts(rows, m => Owns(m, original, userId));
  }

  /** The `processTitle` calls for `entries`, one after the other, from the rows `rows`: the
      results in order and the rows after the last call. */
  function RunTitles(rows: seq<Movie>, entries: seq<(string, string)>, userId: string,
                     fetch: string -> Option<Details>, accept: (seq<Movie>, Movie) -> bool)
    : (out: (seq<Option<Movie>>, seq<Movie>))
    ensures |out.0| == |entries|
    decreases |entries|
  {
    if entries == [] then ([], rows)
    else
      var before := RunTitles(rows, entries[..|entries| - 1], userId, fetch, accept);
      var e := entries[|entries| - 1];
      var step := TitleOutcome(before.1, e.0, e.1, userId, fetch, accept);
      (before.0 + [step.0], step.1)
  }

  /** Running two lists of titles one after the other is running their concatenation. */
  lemma {:induction false} RunTitlesAppend(rows: seq<Movie>, a: seq<(string, string)>, b: seq<(string, string)>,
                                           userId: string, fetch: string -> Option<Details>,
                                           accept: (seq<Movie>, Movie) -> bool)
    ensures var ra := RunTitles(rows, a, userId, fetch, accept);
      var rb := RunTitles(ra.1, b, userId, fetch, accept);
      RunTitles(rows, a + b, userId, fetch, accept) == (ra.0 + rb.0, rb.1)
    decreases |b|
  {
    if b == [] {
      assert a + b == a;
      assert RunTitles(rows, a, userId, fetch, accept).0 + [] == RunTitles(rows, a, userId, fetch, accept).0;
    } else {
      var bi := b[..|b| - 1];
      RunTitlesAppend(rows, a, bi, userId, fetch, accept);
      assert (a + b)[..|a + b| - 1] == a + bi;
      assert (a + b)[|a + b| - 1] == b[|b| - 1];
      var ra := RunTitles(rows, a, userId, fetch, accept);
      var rbi := RunTitles(ra.1, bi, userId, fetch, accept);
      var step := TitleOutcome(rbi.1, b[|b| - 1].0, b[|b| - 1].1, userId, fetch, accept);
      assert RunTitles(ra.1, b, userId, fetch, accept) == (rbi.0 + [step.0], step.1);
      assert ra.0 + rbi.0 + [step.0] == ra.0 + (rbi.0 + [step.0]);
    }
  }

  /** The result for entry `j` is what `processTitle` answers on the rows left by the entries
      before it. */
  lemma {:induction false} RunTitlesResult(rows: seq<Movie>, entries: seq<(string, string)>, userId: string,
                                           fetch: string -> Option<Details>, accept: (seq<Movie>, Movie) -> bool,
                                           j: nat)
    requires j < |entries|
    ensures RunTitles(rows, entries, userId, fetch, accept).0[j] ==
      TitleOutcome(RunTitles(rows, entries[..j], userId, fetch, accept).1, entries[j].0, entries[j].1,
                   userId, fetch, accept).0
    decreases |entries|
  {
    var init := entries[..|entries| - 1];
    if j < |entries| - 1 {
      RunTitlesResult(rows, init, userId, fetch, accept, j);
      assert init[..j] == entries[..j];
    } else {
      assert init == entries[..j];
    }
  }

  /** Entry `j` of the batch loop gets a record exactly when its original title already had a
      single row of the user's in the store as the earlier entries left it, or its details were
      fetched and the store took the new record; a record is the user's under that title. */
  lemma RunTitlesFacts(rows: seq<Movie>, entries: seq<(string, string)>, userId: string,
                       fetch: string -> Option<Details>, accept: (seq<Movie>, Movie) -> bool, j: nat)
    requires j < |entries|
    ensures var before := RunTitles(rows, entries[..j], userId, fetch, accept).1;
      var r := RunTitles(rows, entries, userId, fetch, accept).0[j];
      var cleaned, original := entries[j].0, entries[j].1;
      && (r.Some? <==>
            |Filter(before, m => Owns(m, original, userId))| == 1 ||
            (fetch(cleaned).Some? && accept(before, NewRecord(userId, original, fetch(cleaned).value))))
      && (r.Some? ==> Owns(r.value, original, userId))
  {
    RunTitlesResult(rows, entries, userId, fetch, accept, j);
    TitleOutcomeFacts(RunTitles(rows, entries[..j], userId, fetch, accept).1, entries[j].0, entries[j].1,
                      userId, fetch, accept);
  }

  /** The rows only grow: every row there was before the loop is still there, in place. */
  lemma {:induction false} RunTitlesGrows(rows: seq<Movie>, entries: seq<(string, string)>, userId: string,
                                          fetch: string -> Option<Details>, accept: (seq<Movie>, Movie) -> bool)
    ensures rows <= RunTitles(rows, entries, userId, fetch, accept).1
    decreases |entries|
  {
    if entries != [] {
      var init := entries[..|entries| - 1];
      RunTitlesGrows(rows, init, userId, fetch, accept);
      var before := RunTitles(rows, init, userId, fetch, accept).1;
      var e := entries[|entries| - 1];
      TitleOutcomeFacts(before, e.0, e.1, userId, fetch, accept);
    }
  }

  lemma RunTitlesOwned(rows: seq<Movie>, entries: seq<(string, string)>, userId: string,
                       fetch: string -> Option<Details>, accept: (seq<Movie>, Movie) -> bool)
    ensures Owned(RunTitles(rows, entries, userId, fetch, accept).0, entries, userId)
  {
    forall j | 0 <= j < |entries| {
      RunTitlesFacts(rows, entries, userId, fetch, accept, j);
    }
  }

  /** The `movie_metadata` table, as far as `processTitle` reads and writes it. */
  class MetadataStore {
    var rows: seq<Movie>

    constructor (rows: seq<Movie>)
      ensures this.rows == rows
    {
      this.rows := rows;
    }

    /** `.select('*').eq('title', title).eq('user_id', userId).single()`: the row, when exactly one
        row has that title and user; `.single()` answers no data for none and for several. */
    function Existing(title: string, userId: string): Option<Movie>
      reads this
    {
      SingleRow(rows, title, userId)
    }

    /** `processTitle(cleanedTitle, originalTitle)`. The provider's lookup by cleaned title is
        `fetch` (`None` when it throws); `accept(rows, record)` is whether the store takes the
        insert. */
    method ProcessTitle(cleaned: string, original: string, userId: string,
                        fetch: string -> Option<Details>, accept: (seq<Movie>, Movie) -> bool)
      returns (r: Option<Movie>)
      modifies this
      ensures old(Existing(original, userId)).Some? ==> r == old(Existing(original, userId)) && rows == old(rows)
      ensures old(Existing(original, userId)).None? && fetch(cleaned).None? ==> r.None? && rows == old(rows)
      ensures old(Existing(original, userId)).None? && fetch(cleaned).Some? ==>
        var record := NewRecord(userId, original, fetch(cleaned).value);
        if accept(old(rows), record) then r == Some(record) && rows == old(rows) + [record]
        else r.None? && rows == old(rows)
      ensures r.Some? ==> Owns(r.value, original, userId)
      ensures (r, rows) == TitleOutcome(old(rows), cleaned, original, userId, fetch, accept)
    {
      var existing := Existing(original, userId);
      if existing.Some? {
        ExistingFacts(original, userId);
        return existing;
      }
      var details := fetch(cleaned);
      if details.None? {
        return None;
      }
      var record := NewRecord(userId, original, details.value);
      if !accept(rows, record) {
        return None;
      }
      rows := rows + [record];
      return Some(record);
    }

    /** A row is reused only when it is the one row of that title and user. */
    lemma ExistingFacts(title: string, userId: string)
      ensures Existing(title, userId).Some? <==> |Filter(rows, m => Owns(m, title, userId))| == 1
      ensures Existing(title, userId).Some? ==>
        Existing(title, userId).value in rows && Owns(Existing(title, userId).value, title, userId)
    {
      FilterFacts(rows, m => Owns(m, title, userId));
    }
  }

  // ---------------------------------------------------------------------------------------------
  // The batch loop of `fetchAndStoreMetadata`

  const TitleBatchSize := 25

  /** `Math.ceil(n / BATCH_SIZE)`. */
  function TotalBatches(n: nat): nat {
    (n + TitleBatchSize - 1) / TitleBatchSize
  }

  /** The progress shown after batch `b` (counting from 0): `Math.min(i + BATCH_SIZE, n)`. */
  function ProgressAfter(b: nat, n: nat): nat {
    Min(b * TitleBatchSize + TitleBatchSize, n)
  }

  /** The values of the fulfilled, non-null results, in order. */
  function Somes<T>(rs: seq<Option<T>>): (vs: seq<T>)
    ensures |vs| <= |rs|
  {
    if rs == [] then []
    else Somes(rs[..|rs| - 1]) + if rs[|rs| - 1].Some? then [rs[|rs| - 1].value] else []
  }

  lemma {:induction false} SomesAppend<T>(a: seq<Option<T>>, b: seq<Option<T>>)
    ensures Somes(a + b) == Somes(a) + Somes(b)
    decreases |b|
  {
    if b == [] {
      assert a + b == a;
    } else {
      var bi := b[..|b| - 1];
      SomesAppend(a, bi);
      assert (a + b)[..|a + b| - 1] == a + bi;
    }
  }

  /** Every kept value comes from some result, in order: a value is kept exactly when it is the
      value of some fulfilled result. */
  lemma {:induction false} SomesMembership<T>(rs: seq<Option<T>>, v: T)
    ensures v in Somes(rs) <==> exists j :: 0 <= j < |rs| && rs[j] == Some(v)
  {
    if rs != [] {
      var init := rs[..|rs| - 1];
      SomesMembership(init, v);
      if exists j :: 0 <= j < |init| && init[j] == Some(v) {
        var j :| 0 <= j < |init| && init[j] == Some(v);
        assert rs[j] == Some(v);
      }
      if exists j :: 0 <= j < |rs| && rs[j] == Some(v) {
        var j :| 0 <= j < |rs| && rs[j] == Some(v);
        if j < |init| {
          assert init[j] == Some(v);
        }
      }
    }
  }

  /** `batchResults.forEach(...)`: push the value of each fulfilled, non-null result. */
  method CollectFulfilled(metadata: seq<Movie>, results: seq<Option<Movie>>) returns (out: seq<Movie>)
    ensures out == metadata + Somes(results)
  {
    out := metadata;
    for j := 0 to |results|
      invariant out == metadata + Somes(results[..j])
    {
      assert results[..j + 1][..j] == results[..j];
      if results[j].Some? {
        out := out + [results[j].value];
      }
    }
    assert results[..|results|] == results;
  }

  /** One batch: `processTitle` for each of its entries, in order. */
  method ProcessBatch(store: MetadataStore, batch: seq<(string, string)>, userId: string,
                      fetch: string -> Option<Details>, accept: (seq<Movie>, Movie) -> bool)
    returns (results: seq<Option<Movie>>)
    modifies store
    ensures (results, store.rows) == RunTitles(old(store.rows), batch, userId, fetch, accept)
    ensures Owned(results, batch, userId)
  {
    results := [];
    for j := 0 to |batch|
      invariant (results, store.rows) == RunTitles(old(store.rows), batch[..j], userId, fetch, accept)
    {
      assert batch[..j + 1][..j] == batch[..j];
      var r := store.ProcessTitle(batch[j].0, batch[j].1, userId, fetch, accept);
      results := results + [r];
    }
    assert batch[..|batch|] == batch;
    RunTitlesOwned(old(store.rows), batch, userId, fetch, accept);
  }

  /** One pass of the batch loop over the titles `i` to `e`: their results are settled and the
      records among them are added to those kept so far. */
  method RunBatch(store: MetadataStore, unique: seq<(string, string)>, i: nat, e: nat, userId: string,
                  fetch: string -> Option<Details>, accept: (seq<Movie>, Movie) -> bool,
                  metadata: seq<Movie>, results: seq<Option<Movie>>, ghost rows0: seq<Movie>)
    returns (metadata': seq<Movie>, results': seq<Option<Movie>>)
    modifies store
    requires i <= e <= |unique|
    requires (results, store.rows) == RunTitles(rows0, unique[..i], userId, fetch, accept)
    requires metadata == Somes(results)
    ensures (results', store.rows) == RunTitles(rows0, unique[..e], userId, fetch, accept)
    ensures metadata' == Somes(results')
    ensures results <= results'
  {
    var batch := unique[i..e];
    var batchResults := ProcessBatch(store, batch, userId, fetch, accept);
    metadata' := CollectFulfilled(metadata, batchResults);
    SomesAppend(results, batchResults);
    RunTitlesAppend(rows0, unique[..i], batch, userId, fetch, accept);
    assert unique[..i] + batch == unique[..e];
    results' := results + batchResults;
  }

  /** `fetchAndStoreMetadata` for a signed-in user: the distinct titles go to `processTitle` in
      batches of 25. After each batch the batch number and the progress are shown and the kept
      records grow; every batch but the last is followed by a pause. */
  method FetchAndStoreMetadata(store: MetadataStore, titles: seq<string>, userId: string,
                               fetch: string -> Option<Details>, accept: (seq<Movie>, Movie) -> bool)
    returns (metadata: seq<Movie>, results: seq<Option<Movie>>, batches: seq<seq<(string, string)>>,
             batchNumbers: seq<nat>, progress: seq<nat>, delays: nat)
    modifies store
    ensures var unique := UniqueTitles(titles);
      && batches == Chunks(unique, TitleBatchSize)
      && (results, store.rows) == RunTitles(old(store.rows), unique, userId, fetch, accept)
      && Owned(results, unique, userId)
      && metadata == Somes(results)
      && Reported(batchNumbers, progress, |batches|, |unique|)
      && delays == (if |unique| == 0 then 0 else |batches| - 1)
  {
    var unique := DedupTitles(titles);
    metadata, results, batches, batchNumbers, progress, delays := ProcessInBatches(store, unique, userId, fetch, accept);
  }

  /** The batch loop of `fetchAndStoreMetadata` over the distinct (cleaned, original) titles. */
  method ProcessInBatches(store: MetadataStore, unique: seq<(string, string)>, userId: string,
                          fetch: string -> Option<Details>, accept: (seq<Movie>, Movie) -> bool)
    returns (metadata: seq<Movie>, results: seq<Option<Movie>>, batches: seq<seq<(string, string)>>,
             batchNumbers: seq<nat>, progress: seq<nat>, delays: nat)
    modifies store
    ensures batches == Chunks(unique, TitleBatchSize)
    ensures (results, store.rows) == RunTitles(old(store.rows), unique, userId, fetch, accept)
    ensures Owned(results, unique, userId)
    ensures metadata == Somes(results)
    ensures Reported(batchNumbers, progress, |batches|, |unique|)
    ensures delays == (if |unique| == 0 then 0 else |batches| - 1)
  {
    var n := |unique|;
    ghost var rows0 := store.rows;
    metadata, results, batches, batchNumbers, progress, delays := [], [], [], [], [], 0;
    var i := 0;
    while i < n
      invariant Scheduled(unique, i, batches, batchNumbers, progress, delays)
      invariant (results, store.rows) == RunTitles(rows0, unique[..Min(i, n)], userId, fetch, accept)
      invariant metadata == Somes(results)
      decreases n - i
    {
      var e;
      e, batches, batchNumbers, progress, delays := ScheduleBatch(unique, i, batches, batchNumbers, progress, delays);
      metadata, results := RunBatch(store, unique, i, e, userId, fetch, accept, metadata, results, rows0);
      i := i + TitleBatchSize;
    }
    assert unique[Min(i, n)..] == [];
    assert unique[..Min(i, n)] == unique;
    RunTitlesOwned(rows0, unique, userId, fetch, accept);
  }

  /** The batch loop's bookkeeping once the titles before `i` are done: `i` counts 25 per batch
      and passes the end by less than a batch; the batches so far followed by the batches of the
      rest are all the batches; each was reported; and every batch but a last one was followed
      by a pause. */
  predicate Scheduled(unique: seq<(string, string)>, i: nat, batches: seq<seq<(string, string)>>,
                      batchNumbers: seq<nat>, progress: seq<nat>, delays: nat)
  {
    var n := |unique|;
    && i == TitleBatchSize * |batches|
    && (i <= n || (0 < |batches| && i - TitleBatchSize < n))
    && batches + Chunks(unique[Min(i, n)..], TitleBatchSize) == Chunks(unique, TitleBatchSize)
    && Reported(batchNumbers, progress, |batches|, n)
    && delays == (if 0 < |batches| && n <= i then |batches| - 1 else |batches|)
  }

  /** The bookkeeping around one batch of the loop: the batch runs up to `e`, it is shown as
      batch `i / 25 + 1` with progress `e`, and a pause follows unless it was the last. */
  method ScheduleBatch(unique: seq<(string, string)>, i: nat, batches: seq<seq<(string, string)>>,
                       batchNumbers: seq<nat>, progress: seq<nat>, delays: nat)
    returns (e: nat, batches': seq<seq<(string, string)>>, batchNumbers': seq<nat>, progress': seq<nat>, delays': nat)
    requires i < |unique| && Scheduled(unique, i, batches, batchNumbers, progress, delays)
    ensures e == Min(i + TitleBatchSize, |unique|) && batches' == batches + [unique[i..e]]
    ensures Scheduled(unique, i + TitleBatchSize, batches', batchNumbers', progress', delays')
  {
    var n := |unique|;
    e := Min(i + TitleBatchSize, n);
    var batch := unique[i..e];
    var batchNumber: nat := i / TitleBatchSize + 1;
    DivUnique(i, TitleBatchSize, |batches|, 0);
    assert batchNumber == |batches| + 1 && ProgressAfter(|batches|, n) == e;
    ReportedStep(batchNumbers, progress, |batches|, n);
    batchNumbers' := batchNumbers + [batchNumber];
    progress' := progress + [e];
    delays' := if i + TitleBatchSize < n then delays + 1 else delays;
    ChunksAdvance(unique, batches, i, batch, TitleBatchSize);
    batches' := batches + [batch];
  }


  /** Each result that carries a record carries one of the user's, under the original title of
      its entry. */
  predicate Owned(results: seq<Option<Movie>>, entries: seq<(string, string)>, userId: string) {
    |results| == |entries| &&
    forall j :: 0 <= j < |results| && results[j].Some? ==> Owns(results[j].value, entries[j].1, userId)
  }

  /** After `count` batches of `n` titles: batch `b` (from 0) was shown as number b + 1, and the
      progress after it as `ProgressAfter(b, n)`. */
  predicate Reported(batchNumbers: seq<nat>, progress: seq<nat>, count: nat, n: nat) {
    |batchNumbers| == count && |progress| == count &&
    forall b :: 0 <= b < count ==> batchNumbers[b] == b + 1 && progress[b] == ProgressAfter(b, n)
  }

  lemma ReportedStep(batchNumbers: seq<nat>, progress: seq<nat>, count: nat, n: nat)
    requires Reported(batchNumbers, progress, count, n)
    ensures Reported(batchNumbers + [count + 1], progress + [ProgressAfter(count, n)], count + 1, n)
  {
  }


  /** There are ceil(n / 25) batches, each a run of at most 25 consecutive titles, together all of
      them in order; so for n > 0 there are ceil(n / 25) - 1 pauses. */
  lemma BatchesFacts(unique: seq<(string, string)>)
    ensures |Chunks(unique, TitleBatchSize)| == TotalBatches(|unique|)
    ensures Flatten(Chunks(unique, TitleBatchSize)) == unique
    ensures forall b :: 0 <= b < |Chunks(unique, TitleBatchSize)| ==> 0 < |Chunks(unique, TitleBatchSize)[b]| <= TitleBatchSize
  {
    ChunksCount(unique, TitleBatchSize);
    ChunksFlatten(unique, TitleBatchSize);
    ChunksSizes(unique, TitleBatchSize);
  }

  /** The progress never goes down, stays below n before the last batch, and reaches n after it. */
  lemma ProgressFacts(n: nat)
    ensures forall b, c :: 0 <= b <= c ==> ProgressAfter(b, n) <= ProgressAfter(c, n)
    ensures forall b :: 0 <= b && b + 1 < TotalBatches(n) ==> ProgressAfter(b, n) < n
    ensures n > 0 ==> ProgressAfter(TotalBatches(n) - 1, n) == n
  {
    var t := TotalBatches(n);
    var q, r := (n + 24) / 25, (n + 24) % 25;
    assert n + 24 == q * 25 + r;
    forall b | 0 <= b && b + 1 < t ensures ProgressAfter(b, n) < n {
      assert b * 25 + 25 <= (t - 1) * 25;
    }
  }
}
