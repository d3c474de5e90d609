/** scripts/tmdb-csv-parser.js: the quoted CSV line reader `parseCSVLine` (the quoted-field and
    doubled-quote rules 5-7 of section 2 of RFC 4180, without line breaks inside quotes) and the
    record building of `readCSVFile` once the file's text has been read. */
module CsvLine {
  import opened JsString
  import opened Seqs
  import opened CsvTitles

  /** The loop variables of `parseCSVLine`: the finished fields, the field being read, and
      whether the reader is inside quotes. */
  datatype Reader = Reader(fields: seq<string>, current: string, inQuotes: bool)

  const Start := Reader([], "", false)

  /** The reader after the characters of `s`. A quote inside quotes that is followed by another
      quote stands for one literal quote and consumes both; any other quote toggles quoting and is
      dropped; a comma outside quotes ends the field. */
  function Scan(s: string, r: Reader): Reader
    decreases |s|
  {
    if s == [] then r
    else if s[0] == '"' then
      if r.inQuotes && |s| > 1 && s[1] == '"' then Scan(s[2..], r.(current := r.current + "\""))
      else Scan(s[1..], r.(inQuotes := !r.inQuotes))
    else if s[0] == ',' && !r.inQuotes then Scan(s[1..], Reader(r.fields + [r.current], "", false))
    else Scan(s[1..], r.(current := r.current + [s[0]]))
  }

  /** The fields of a line: the finished fields and the last one. */
  function ParseLine(line: string): (fields: seq<string>)
    ensures |fields| >= 1
  {
    var r := Scan(line, Start);
    r.fields + [r.current]
  }

  /** `parseCSVLine(line)`. */
  method ParseCSVLine(line: string) returns (result: seq<string>)
    ensures result == ParseLine(line)
  {
    result := [];
    var current := "";
    var inQuotes := false;
    var i := 0;
    while i < |line|
      invariant 0 <= i <= |line|
      invariant Scan(line[i..], Reader(result, current, inQuotes)) == Scan(line, Start)
      decreases |line| - i
    {
      var c := line[i];
      assert line[i..][0] == c && line[i..][1..] == line[i + 1..];
      if c == '"' {
        if inQuotes && i + 1 < |line| && line[i + 1] == '"' {
          assert line[i..][2..] == line[i + 2..];
          current := current + "\"";
          i := i + 1;
        } else {
          inQuotes := !inQuotes;
        }
      } else if c == ',' && !inQuotes {
        result := result + [current];
        current := "";
      } else {
        current := current + [c];
      }
      i := i + 1;
    }
    result := result + [current];
  }

  /** Commas read while not inside quotes, with quotes handled as the reader handles them. */
  function UnquotedCommas(s: string, inQuotes: bool): nat
    decreases |s|
  {
    if s == [] then 0
    else if s[0] == '"' then
      if inQuotes && |s| > 1 && s[1] == '"' then UnquotedCommas(s[2..], inQuotes)
      else UnquotedCommas(s[1..], !inQuotes)
    else if s[0] == ',' && !inQuotes then 1 + UnquotedCommas(s[1..], false)
    else UnquotedCommas(s[1..], inQuotes)
  }

  lemma {:induction false} ScanCount(s: string, r: Reader)
    ensures |Scan(s, r).fields| == |r.fields| + UnquotedCommas(s, r.inQuotes)
    decreases |s|
  {
    if s != [] {
      if s[0] == '"' {
        if r.inQuotes && |s| > 1 && s[1] == '"' {
          ScanCount(s[2..], r.(current := r.current + "\""));
        } else {
          ScanCount(s[1..], r.(inQuotes := !r.inQuotes));
        }
      } else if s[0] == ',' && !r.inQuotes {
        ScanCount(s[1..], Reader(r.fields + [r.current], "", false));
      } else {
        ScanCount(s[1..], r.(current := r.current + [s[0]]));
      }
    }
  }

  /** A line has one field more than it has commas outside quotes. */
  lemma FieldCount(line: string)
    ensures |ParseLine(line)| == 1 + UnquotedCommas(line, false)
  {
    ScanCount(line, Start);
  }

  lemma {:induction false} ScanUnquoted(s: string, r: Reader)
    requires '"' !in s && !r.inQuotes
    ensures var e := Scan(s, r);
      e.fields + [e.current] == r.fields + [r.current + Split(s, ',')[0]] + Split(s, ',')[1..]
    decreases |s|
  {
    if s != [] {
      var rest := Split(s[1..], ',');
      assert [rest[0]] + rest[1..] == rest;
      if s[0] == ',' {
        ScanUnquoted(s[1..], Reader(r.fields + [r.current], "", false));
        assert Split(s, ',') == [""] + rest;
        assert Split(s, ',')[0] == "" && Split(s, ',')[1..] == rest;
        assert r.current + "" == r.current && "" + rest[0] == rest[0];
        assert r.fields + [r.current] + [rest[0]] + rest[1..] == r.fields + [r.current] + rest;
      } else {
        ScanUnquoted(s[1..], r.(current := r.current + [s[0]]));
        assert Split(s, ',') == [[s[0]] + rest[0]] + rest[1..];
        assert Split(s, ',')[0] == [s[0]] + rest[0] && Split(s, ',')[1..] == rest[1..];
        assert r.current + [s[0]] + rest[0] == r.current + ([s[0]] + rest[0]);
      }
    } else {
      assert Split(s, ',') == [""];
      assert r.current + "" == r.current;
    }
  }

  /** A line without quotes is read exactly as `line.split(',')`. */
  lemma ParseLineWithoutQuotes(line: string)
    requires '"' !in line
    ensures ParseLine(line) == Split(line, ',')
  {
    ScanUnquoted(line, Start);
    var parts := Split(line, ',');
    assert "" + parts[0] == parts[0];
    assert [] + [parts[0]] + parts[1..] == parts;
  }

  /** A field written as RFC 4180 prescribes: inner quotes doubled. */
  function Escape(f: string): string {
    if f == [] then []
    else (if f[0] == '"' then "\"\"" else [f[0]]) + Escape(f[1..])
  }

  /** The field quoted: `"` + escaped text + `"`. */
  function Quoted(f: string): string {
    "\"" + Escape(f) + "\""
  }

  /** A line of quoted fields separated by commas. */
  function EncodeLine(fields: seq<string>): string
    requires |fields| >= 1
  {
    if |fields| == 1 then Quoted(fields[0]) else Quoted(fields[0]) + "," + EncodeLine(fields[1..])
  }

  /** Inside quotes, an escaped text and its closing quote add the text to the field and leave
      quoting, provided no quote follows. */
  lemma {:induction false} ScanEscaped(f: string, rest: string, r: Reader)
    requires r.inQuotes
    requires rest == [] || rest[0] != '"'
    ensures Scan(Escape(f) + "\"" + rest, r) == Scan(rest, Reader(r.fields, r.current + f, false))
    decreases |f|
  {
    var s := Escape(f) + "\"" + rest;
    if f == [] {
      assert s == "\"" + rest;
      assert s[1..] == rest;
      assert r.current + f == r.current;
    } else {
      var tail := Escape(f[1..]) + "\"" + rest;
      ScanEscaped(f[1..], rest, r.(current := r.current + [f[0]]));
      if f[0] == '"' {
        assert s == "\"\"" + tail;
        assert s[2..] == tail;
      } else {
        assert s == [f[0]] + tail;
        assert s[1..] == tail;
      }
      assert r.current + [f[0]] + f[1..] == r.current + f;
    }
  }

  lemma {:induction false} ScanEncoded(fields: seq<string>, done: seq<string>)
    requires |fields| >= 1
    ensures var e := Scan(EncodeLine(fields), Reader(done, "", false));
      e.fields + [e.current] == done + fields
    decreases |fields|
  {
    var q := Quoted(fields[0]);
    var r := Reader(done, "", false);
    var rest := if |fields| == 1 then "" else "," + EncodeLine(fields[1..]);
    var s := q + rest;
    assert EncodeLine(fields) == s;
    assert s == "\"" + (Escape(fields[0]) + "\"" + rest);
    assert s[1..] == Escape(fields[0]) + "\"" + rest;
    ScanEscaped(fields[0], rest, r.(inQuotes := true));
    assert "" + fields[0] == fields[0];
    if |fields| > 1 {
      assert rest[1..] == EncodeLine(fields[1..]);
      ScanEncoded(fields[1..], done + [fields[0]]);
      assert done + [fields[0]] + fields[1..] == done + fields;
    }
  }

  /** Quoting every field and joining with commas reads back as the same fields. */
  lemma ParseEncodedLine(fields: seq<string>)
    requires |fields| >= 1
    ensures ParseLine(EncodeLine(fields)) == fields
  {
    ScanEncoded(fields, []);
  }

  /** `row[header.trim()] = values[index] ? values[index].trim() : ''` for every header in turn;
      a later header with the same trimmed name overwrites an earlier one. */
  function BuildRow(headers: seq<string>, values: seq<string>): Row {
    if headers == [] then map[]
    else
      var j := |headers| - 1;
      BuildRow(headers[..j], values)[Trim(headers[j]) := if j < |values| then Trim(values[j]) else ""]
  }

  /** A record has exactly the trimmed headers as keys. */
  lemma {:induction false} BuildRowKeys(headers: seq<string>, values: seq<string>)
    ensures forall k :: k in BuildRow(headers, values) <==> exists j :: 0 <= j < |headers| && Trim(headers[j]) == k
  {
    if headers != [] {
      var init := headers[..|headers| - 1];
      BuildRowKeys(init, values);
      forall k | k in BuildRow(headers, values)
        ensures exists j :: 0 <= j < |headers| && Trim(headers[j]) == k
      {
        if k in BuildRow(init, values) {
          var j :| 0 <= j < |init| && Trim(init[j]) == k;
          assert headers[j] == init[j];
        }
      }
      forall j | 0 <= j < |headers|
        ensures Trim(headers[j]) in BuildRow(headers, values)
      {
        if j < |init| {
          assert headers[j] == init[j];
        }
      }
    }
  }

  /** Under a trimmed header name, a record holds the trimmed value of the last header of that
      name, or '' when the line has no value there. */
  lemma {:induction false} BuildRowValue(headers: seq<string>, values: seq<string>, j: nat)
    requires j < |headers|
    requires forall j' :: j < j' < |headers| ==> Trim(headers[j']) != Trim(headers[j])
    ensures Trim(headers[j]) in BuildRow(headers, values)
    ensures BuildRow(headers, values)[Trim(headers[j])] == if j < |values| then Trim(values[j]) else ""
  {
    var last := |headers| - 1;
    if j < last {
      var init := headers[..last];
      assert forall j' :: j < j' < |init| ==> init[j'] == headers[j'];
      BuildRowValue(init, values, j);
      assert init[j] == headers[j];
    }
  }

  predicate NonBlankLine(line: string) { Trim(line) != "" }

  /** The records of the lines after the header line: one per line that is not blank. */
  function RecordsOf(headers: seq<string>, lines: seq<string>): seq<Row> {
    if lines == [] then []
    else
      var last := lines[|lines| - 1];
      RecordsOf(headers, lines[..|lines| - 1]) + if NonBlankLine(last) then [BuildRow(headers, ParseLine(last))] else []
  }

  /** The records of a file's text: the first line gives the headers. */
  function Records(content: string): seq<Row> {
    var lines := Split(content, '\n');
    RecordsOf(ParseLine(lines[0]), lines[1..])
  }

  /** `readCSVFile` once the text has been read: one record per non-blank line after the first,
      in order. */
  method ReadRecords(content: string) returns (data: seq<Row>)
    ensures data == Records(content)
  {
    var lines := Split(content, '\n');
    var headers := ParseCSVLine(lines[0]);
    data := [];
    var i := 1;
    while i < |lines|
      invariant 1 <= i <= |lines|
      invariant data == RecordsOf(headers, lines[1..i])
    {
      assert lines[1..i + 1][..i - 1] == lines[1..i];
      if NonBlankLine(lines[i]) {
        var values := ParseCSVLine(lines[i]);
        data := data + [BuildRow(headers, values)];
      }
      i := i + 1;
    }
    assert lines[1..i] == lines[1..];
  }

  /** There is one record per non-blank line, and each record has every trimmed header as a
      key. */
  lemma {:induction false} RecordsOfFacts(headers: seq<string>, lines: seq<string>)
    ensures |RecordsOf(headers, lines)| == |Filter(lines, NonBlankLine)|
    ensures forall i, j :: 0 <= i < |RecordsOf(headers, lines)| && 0 <= j < |headers| ==>
      Trim(headers[j]) in RecordsOf(headers, lines)[i]
  {
    if lines != [] {
      var last := lines[|lines| - 1];
      RecordsOfFacts(headers, lines[..|lines| - 1]);
      BuildRowKeys(headers, ParseLine(last));
    }
  }

  /** A file's text gives one record per non-blank line after the header line, each with every
      trimmed header as a key. */
  lemma RecordsFacts(content: string)
    ensures |Records(content)| == |Filter(Split(content, '\n')[1..], NonBlankLine)|
    ensures var headers := ParseLine(Split(content, '\n')[0]);
      forall i, j :: 0 <= i < |Records(content)| && 0 <= j < |headers| ==> Trim(headers[j]) in Records(content)[i]
  {
    var lines := Split(content, '\n');
    RecordsOfFacts(ParseLine(lines[0]), lines[1..]);
  }
}
