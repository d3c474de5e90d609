/** lib/csv-parser.ts after the CSV text has been split into records: choosing the column that
    holds the titles, extracting the titles, and classifying the parse result. */
module CsvTitles {
  import opened Base
  import opened JsString
  import opened Seqs

  /** A parsed record: header name to cell text; a column the record lacks is absent. */
  type Row = map<string, string>

  /** The header names that may hold a title, in order of priority. */
  const Patterns: seq<string> := ["title", "name", "movie", "show", "film", "series", "program", "content", "media"]

  predicate Exact(header: string, pattern: string) { header == pattern }

  predicate Partial(header: string, pattern: string) { Contains(header, pattern) }

  /** The first pattern, in priority order, that some normalised header matches under `m`,
      answered by the position of the first header it matches. */
  function Search(norm: seq<string>, ps: seq<string>, m: (string, string) -> bool): (r: Option<nat>)
    ensures r.Some? ==> r.value < |norm|
  {
    if ps == [] then None
    else match FirstIndex(norm, h => m(h, ps[0]))
      case Some(i) => Some(i)
      case None => Search(norm, ps[1..], m)
  }

  /** `findTitleColumn(headers)`: an exact match of a lower-cased, trimmed header, else a header
      containing a pattern, else the first header; `None` for `null`. */
  function FindTitleColumn(headers: seq<string>): Option<string> {
    var norm := Map(headers, TitleKey);
    match Search(norm, Patterns, Exact)
    case Some(i) => Some(headers[i])
    case None =>
      match Search(norm, Patterns, Partial)
      case Some(i) => Some(headers[i])
      case None => if |headers| > 0 then Some(headers[0]) else None
  }

  /** The search answers the first header matched by the first pattern that matches any. */
  lemma {:induction false} SearchFinds(norm: seq<string>, ps: seq<string>, m: (string, string) -> bool, k: nat, i: nat)
    requires k < |ps| && i < |norm| && m(norm[i], ps[k])
    requires forall k', j :: 0 <= k' < k && 0 <= j < |norm| ==> !m(norm[j], ps[k'])
    requires forall j :: 0 <= j < i ==> !m(norm[j], ps[k])
    ensures Search(norm, ps, m) == Some(i)
  {
    var p := h => m(h, ps[0]);
    FirstIndexFacts(norm, p);
    if k == 0 {
      var v := FirstIndex(norm, p).value;
      assert !(v < i);
      assert !(i < v);
    } else {
      assert FirstIndex(norm, p).None?;
      SearchFinds(norm, ps[1..], m, k - 1, i);
    }
  }

  /** The search finds nothing exactly when no header matches any pattern. */
  lemma {:induction false} SearchNone(norm: seq<string>, ps: seq<string>, m: (string, string) -> bool)
    ensures Search(norm, ps, m).None? <==> forall k, j :: 0 <= k < |ps| && 0 <= j < |norm| ==> !m(norm[j], ps[k])
  {
    if ps != [] {
      FirstIndexFacts(norm, h => m(h, ps[0]));
      SearchNone(norm, ps[1..], m);
      assert forall k :: 1 <= k < |ps| ==> ps[k] == ps[1..][k - 1];
    }
  }

  /** No column is chosen exactly when there are no headers; a chosen column is one of the
      headers, spelt as in the file. */
  lemma FindTitleColumnFacts(headers: seq<string>)
    ensures FindTitleColumn(headers).None? <==> headers == []
    ensures FindTitleColumn(headers).Some? ==> FindTitleColumn(headers).value in headers
  {
  }

  /** An exact match wins over any partial match; among exact matches the pattern's priority
      decides first and the header's position second. */
  lemma FindTitleColumnExact(headers: seq<string>, k: nat, i: nat)
    requires k < |Patterns| && i < |headers| && TitleKey(headers[i]) == Patterns[k]
    requires forall k', j :: 0 <= k' < k && 0 <= j < |headers| ==> TitleKey(headers[j]) != Patterns[k']
    requires forall j :: 0 <= j < i ==> TitleKey(headers[j]) != Patterns[k]
    ensures FindTitleColumn(headers) == Some(headers[i])
  {
    var norm := Map(headers, TitleKey);
    MapFacts(headers, TitleKey);
    SearchFinds(norm, Patterns, Exact, k, i);
  }

  /** Without an exact match, the first header containing the highest-priority pattern that
      some header contains is chosen. */
  lemma FindTitleColumnPartial(headers: seq<string>, k: nat, i: nat)
    requires forall k', j :: 0 <= k' < |Patterns| && 0 <= j < |headers| ==> TitleKey(headers[j]) != Patterns[k']
    requires k < |Patterns| && i < |headers| && Contains(TitleKey(headers[i]), Patterns[k])
    requires forall k', j :: 0 <= k' < k && 0 <= j < |headers| ==> !Contains(TitleKey(headers[j]), Patterns[k'])
    requires forall j :: 0 <= j < i ==> !Contains(TitleKey(headers[j]), Patterns[k])
    ensures FindTitleColumn(headers) == Some(headers[i])
  {
    var norm := Map(headers, TitleKey);
    MapFacts(headers, TitleKey);
    SearchNone(norm, Patterns, Exact);
    SearchFinds(norm, Patterns, Partial, k, i);
  }

  /** With no header matching any pattern, exactly or partially, the first header is chosen. */
  lemma FindTitleColumnFallback(headers: seq<string>)
    requires headers != []
    requires forall k, j :: 0 <= k < |Patterns| && 0 <= j < |headers| ==> !Contains(TitleKey(headers[j]), Patterns[k])
    ensures FindTitleColumn(headers) == Some(headers[0])
  {
    var norm := Map(headers, TitleKey);
    MapFacts(headers, TitleKey);
    forall k, j | 0 <= k < |Patterns| && 0 <= j < |headers|
      ensures TitleKey(headers[j]) != Patterns[k]
    {
      ContainsSelf(Patterns[k]);
    }
    SearchNone(norm, Patterns, Exact);
    SearchNone(norm, Patterns, Partial);
  }

  lemma ContainsSelf(s: string)
    ensures Contains(s, s)
  {
    assert StartsWith(s[0..], s);
  }

  /** `row[column]`, with a missing cell read as empty (both are dropped as titles). */
  function Cell(row: Row, column: string): string {
    if column in row then row[column] else ""
  }

  predicate NonBlank(s: string) { |Trim(s)| > 0 }

  /** `extractMovieTitles(data, column)`: the non-blank cells of the column, trimmed, each
      title once, in order of first occurrence. */
  function ExtractTitles(data: seq<Row>, column: string): (titles: seq<string>)
    ensures column == "" || data == [] ==> titles == []
  {
    if column == "" || |data| == 0 then []
    else Distinct(Map(Filter(Map(data, r => Cell(r, column)), NonBlank), Trim))
  }

  /** The titles are trimmed, non-empty and pairwise distinct, and they are exactly the trimmed
      non-blank cells of the column. */
  lemma ExtractTitlesFacts(data: seq<Row>, column: string)
    requires column != ""
    ensures NoDup(ExtractTitles(data, column))
    ensures forall t :: t in ExtractTitles(data, column) ==> t != "" && NoOuterSpace(t)
    ensures forall t :: t in ExtractTitles(data, column) <==>
      exists i :: 0 <= i < |data| && NonBlank(Cell(data[i], column)) && t == Trim(Cell(data[i], column))
  {
    if data != [] {
      var cells := Map(data, r => Cell(r, column));
      var trimmed := Map(Filter(cells, NonBlank), Trim);
      MapFacts(data, r => Cell(r, column));
      MapFilterMembership(cells, NonBlank, Trim);
      DistinctFacts(trimmed);
      forall t | t in trimmed ensures t != "" && NoOuterSpace(t) {
        var i :| 0 <= i < |cells| && NonBlank(cells[i]) && t == Trim(cells[i]);
      }
    }
  }

  /** The titles come out in the order in which they first occur in the column: the titles of
      the first `n` rows are a prefix of the titles of all rows. */
  lemma ExtractTitlesOrder(data: seq<Row>, column: string, n: nat)
    requires n <= |data|
    ensures ExtractTitles(data[..n], column) <= ExtractTitles(data, column)
  {
    if column != "" && n > 0 {
      var f := r => Cell(r, column);
      var trimmed := Map(Filter(Map(data, f), NonBlank), Trim);
      var pre := Map(Filter(Map(data[..n], f), NonBlank), Trim);
      MapPrefix(data, f, n);
      FilterPrefix(Map(data, f), NonBlank, n);
      var m := |Filter(Map(data, f)[..n], NonBlank)|;
      MapPrefix(Filter(Map(data, f), NonBlank), Trim, m);
      assert pre == trimmed[..|pre|];
      DistinctPrefix(trimmed, |pre|);
    }
  }

  /** Mapping a prefix gives the prefix of the mapped sequence. */
  lemma {:induction false} MapPrefix<A, B>(s: seq<A>, f: A -> B, n: nat)
    requires n <= |s|
    ensures Map(s[..n], f) == Map(s, f)[..n]
  {
    MapFacts(s[..n], f);
    MapFacts(s, f);
  }

  /** Filtering a prefix gives a prefix of the filtered sequence. */
  lemma {:induction false} FilterPrefix<T>(s: seq<T>, p: T -> bool, n: nat)
    requires n <= |s|
    ensures |Filter(s[..n], p)| <= |Filter(s, p)|
    ensures Filter(s[..n], p) == Filter(s, p)[..|Filter(s[..n], p)|]
    decreases |s|
  {
    if n < |s| {
      FilterPrefix(s[..|s| - 1], p, n);
      assert s[..|s| - 1][..n] == s[..n];
    } else {
      assert s[..n] == s;
    }
  }

  datatype ParseResult =
    | Parsed(headers: seq<string>, data: seq<Row>, movieTitles: seq<string>)
    | ParseFailed(error: string)

  const DelimiterError := "Invalid CSV format: Unable to detect proper delimiter"
  const NoHeadersError := "CSV file appears to have no headers"
  const NoRowsError := "CSV file appears to have no data rows"

  /** The `complete` callback of `parseCSVFile`: the error types the CSV reader reported, its
      header fields (`None` when it reported none), and the non-empty records. */
  function Classify(errorTypes: seq<string>, fields: Option<seq<string>>, data: seq<Row>): ParseResult {
    var headers := if fields.Some? then fields.value else [];
    if |Filter(errorTypes, e => e == "Delimiter")| > 0 then ParseFailed(DelimiterError)
    else if |headers| == 0 then ParseFailed(NoHeadersError)
    else if |data| == 0 then ParseFailed(NoRowsError)
    else
      var titles := match FindTitleColumn(headers)
        case Some(column) => ExtractTitles(data, column)
        case None => [];
      Parsed(headers, data, titles)
  }

  /** The parse fails, with the first applicable message, on a delimiter error, on no headers and
      on no records, in that order; otherwise it carries the headers, the records and the titles
      of the chosen column. */
  lemma ClassifyFacts(errorTypes: seq<string>, fields: Option<seq<string>>, data: seq<Row>)
    ensures var r := Classify(errorTypes, fields, data);
      var headers := if fields.Some? then fields.value else [];
      && ("Delimiter" in errorTypes ==> r == ParseFailed(DelimiterError))
      && ("Delimiter" !in errorTypes && headers == [] ==> r == ParseFailed(NoHeadersError))
      && ("Delimiter" !in errorTypes && headers != [] && data == [] ==> r == ParseFailed(NoRowsError))
      && ("Delimiter" !in errorTypes && headers != [] && data != [] ==>
            r == Parsed(headers, data, ExtractTitles(data, FindTitleColumn(headers).value)))
  {
    var isDelimiter := e => e == "Delimiter";
    FilterFacts(errorTypes, isDelimiter);
    var headers := if fields.Some? then fields.value else [];
    FindTitleColumnFacts(headers);
    if "Delimiter" in errorTypes {
      var i :| 0 <= i < |errorTypes| && errorTypes[i] == "Delimiter";
      assert errorTypes[i] in Filter(errorTypes, isDelimiter);
    }
  }
}
