// The CSV export and import of the web app (excel-data-manager.js): the field
// escaper, the quote-aware line parser, the export of the property list, the
// import that filters blank lines and rows, and the accepted file types.
// Fields are quoted as in items 6 and 7 of section 2 of RFC 4180: a field
// holding a comma, a double quote or a line break is enclosed in double quotes
// and each inner double quote is doubled.
//
// A stored property is a JavaScript object of text fields, modelled as a map
// from field name to text; a missing key reads as the empty text.

module Csv {
  import opened Wrappers
  import opened Text

  type Record = map<string, string>

  /** `property.key || ''` */
  function Get(p: Record, key: string): string
  {
    if key in p then p[key] else ""
  }

  /** The exported fields, in column order, and their column headers. */
  const FieldNames: seq<string> :=
    ["caseNumber", "name", "type", "location", "region", "district", "notes", "createdAt", "updatedAt"]
  const Headers: seq<string> :=
    ["사건번호", "매물명", "매물유형", "위치", "지역", "구/군", "메모", "생성일시", "수정일시"]

  // ---------------------------------------------------------------------
  // Escaping

  predicate NeedsQuotes(s: string)
  {
    ',' in s || '"' in s || '\n' in s
  }

  /** `str.replace(/"/g, '""')` */
  function DoubleQuotes(s: string): (r: string)
    ensures '"' !in s ==> r == s
  {
    if |s| == 0 then ""
    else if s[0] == '"' then "\"\"" + DoubleQuotes(s[1..])
    else [s[0]] + DoubleQuotes(s[1..])
  }

  /** Doubling the quotes neither adds nor removes a kind of character. */
  lemma {:induction false} DoubleQuotesChars(s: string, c: char)
    ensures c in DoubleQuotes(s) <==> c in s
  {
    if |s| > 0 {
      DoubleQuotesChars(s[1..], c);
      assert c in s <==> c == s[0] || c in s[1..];
    }
  }

  /** escapeCSV: '' for a missing field; a field needing quotes is quoted with its quotes
      doubled; any other field is unchanged. */
  function EscapeCsv(field: Option<string>): (r: string)
    ensures field.None? ==> r == ""
    ensures field.Some? && !NeedsQuotes(field.value) ==> r == field.value
    ensures field.Some? && NeedsQuotes(field.value) ==> |r| >= 2 && r[0] == '"' && r[|r| - 1] == '"'
  {
    match field
    case None => ""
    case Some(s) => if NeedsQuotes(s) then "\"" + DoubleQuotes(s) + "\"" else s
  }

  /** Escaping keeps every character of the field and adds a line break only where one was. */
  lemma EscapeChars(f: string, c: char)
    ensures c in f ==> c in EscapeCsv(Some(f))
    ensures '\n' in EscapeCsv(Some(f)) <==> '\n' in f
  {
    DoubleQuotesChars(f, c);
    DoubleQuotesChars(f, '\n');
  }

  function EscapeAll(fields: seq<string>): (r: seq<string>)
    ensures |r| == |fields|
  {
    seq(|fields|, i requires 0 <= i < |fields| => EscapeCsv(Some(fields[i])))
  }

  // ---------------------------------------------------------------------
  // Parsing one line

  /** The parser's state machine on the rest `s` of the line: inside quotes or not, the field
      read so far and the fields already completed. A doubled quote inside quotes is one
      quote; any other quote toggles the quoting; a comma outside quotes ends a field. */
  function Scan(s: string, inQuotes: bool, current: string, done: seq<string>): (r: seq<string>)
    ensures |r| > |done|
    decreases |s|
  {
    if |s| == 0 then done + [current]
    else if s[0] == '"' then
      if inQuotes && |s| > 1 && s[1] == '"' then Scan(s[2..], inQuotes, current + "\"", done)
      else Scan(s[1..], !inQuotes, current, done)
    else if s[0] == ',' && !inQuotes then
      Scan(s[1..], inQuotes, "", done + [current])
    else Scan(s[1..], inQuotes, current + [s[0]], done)
  }

  /** The fields of a line. */
  function ParseFields(line: string): (r: seq<string>)
    ensures |r| >= 1
  {
    Scan(line, false, "", [])
  }

  /** parseCSVLine */
  method ParseCsvLine(line: string) returns (result: seq<string>)
    ensures result == ParseFields(line)
  {
    result := [];
    var current := "";
    var inQuotes := false;
    var i := 0;
    while i < |line|
      invariant 0 <= i <= |line|
      invariant Scan(line[i..], inQuotes, current, result) == ParseFields(line)
      decreases |line| - i
    {
      var c := line[i];
      if c == '"' {
        if inQuotes && i + 1 < |line| && line[i + 1] == '"' {
          assert line[i..][2..] == line[i + 2..];
          current := current + "\"";
          i := i + 1;
        } else {
          assert line[i..][1..] == line[i + 1..];
          inQuotes := !inQuotes;
        }
      } else if c == ',' && !inQuotes {
        assert line[i..][1..] == line[i + 1..];
        result := result + [current];
        current := "";
      } else {
        assert line[i..][1..] == line[i + 1..];
        current := current + [c];
      }
      i := i + 1;
    }
    assert line[i..] == "";
    result := result + [current];
  }

  /** Without quotes the parser splits at every comma. */
  lemma ParseWithoutQuotes(line: string)
    requires '"' !in line
    ensures ParseFields(line) == Split(line, ',')
  {
    ScanWithoutQuotes(line, "", []);
    var pieces := Split(line, ',');
    assert "" + pieces[0] == pieces[0];
    assert [] + [pieces[0]] + pieces[1..] == pieces;
  }

  lemma {:induction false} ScanWithoutQuotes(s: string, current: string, done: seq<string>)
    requires '"' !in s
    ensures var pieces := Split(s, ',');
            Scan(s, false, current, done) == done + [current + pieces[0]] + pieces[1..]
  {
    if |s| == 0 {
      assert current + "" == current;
    } else {
      assert '"' !in s[1..] by {
        assert forall k :: 0 <= k < |s[1..]| ==> s[1..][k] == s[k + 1];
      }
      var rest := Split(s[1..], ',');
      if s[0] == ',' {
        ScanWithoutQuotes(s[1..], "", done + [current]);
        ScanCommaStep(s, current, done, rest);
      } else {
        ScanWithoutQuotes(s[1..], current + [s[0]], done);
        ScanCharStep(s, current, done, rest);
      }
    }
  }

  /** One comma outside quotes, next to the split it matches. */
  lemma ScanCommaStep(s: string, current: string, done: seq<string>, rest: seq<string>)
    requires |s| > 0 && s[0] == ',' && rest == Split(s[1..], ',')
    requires Scan(s[1..], false, "", done + [current]) == done + [current] + ["" + rest[0]] + rest[1..]
    ensures Scan(s, false, current, done) == done + [current + Split(s, ',')[0]] + Split(s, ',')[1..]
  {
    assert Split(s, ',') == [""] + rest;
    CommaPieces(done, current, rest);
  }

  lemma CommaPieces(done: seq<string>, current: string, rest: seq<string>)
    requires |rest| >= 1
    ensures done + [current] + ["" + rest[0]] + rest[1..] == done + [current + ([""] + rest)[0]] + ([""] + rest)[1..]
  {
    assert ([""] + rest)[1..] == rest;
    assert current + "" == current && "" + rest[0] == rest[0];
    assert [rest[0]] + rest[1..] == rest;
  }

  /** One ordinary character outside quotes, next to the split it matches. */
  lemma ScanCharStep(s: string, current: string, done: seq<string>, rest: seq<string>)
    requires |s| > 0 && s[0] != ',' && s[0] != '"' && rest == Split(s[1..], ',')
    requires Scan(s[1..], false, current + [s[0]], done) == done + [current + [s[0]] + rest[0]] + rest[1..]
    ensures Scan(s, false, current, done) == done + [current + Split(s, ',')[0]] + Split(s, ',')[1..]
  {
    assert Split(s, ',') == [[s[0]] + rest[0]] + rest[1..];
    assert current + [s[0]] + rest[0] == current + ([s[0]] + rest[0]);
  }

  /** An unquoted field is read character by character. */
  lemma {:induction false} ScanPlain(f: string, rest: string, current: string, done: seq<string>)
    requires ',' !in f && '"' !in f
    ensures Scan(f + rest, false, current, done) == Scan(rest, false, current + f, done)
  {
    if |f| == 0 {
      assert f + rest == rest;
      assert current + f == current;
    } else {
      assert (f + rest)[1..] == f[1..] + rest;
      ScanPlain(f[1..], rest, current + [f[0]], done);
      assert current + [f[0]] + f[1..] == current + f;
    }
  }

  /** A quoted body with doubled quotes, and its closing quote, give back the field. */
  lemma {:induction false} ScanQuoted(f: string, rest: string, current: string, done: seq<string>)
    requires |rest| == 0 || rest[0] == ','
    ensures Scan(DoubleQuotes(f) + "\"" + rest, true, current, done) == Scan(rest, false, current + f, done)
  {
    if |f| == 0 {
      assert DoubleQuotes(f) + "\"" + rest == "\"" + rest;
      ScanClosingQuote(rest, current, done);
      assert current + f == current;
    } else {
      ScanQuotedHead(f, rest, current, done);
      ScanQuoted(f[1..], rest, current + [f[0]], done);
      assert current + [f[0]] + f[1..] == current + f;
    }
  }

  /** The first character of a quoted body, doubled when it is a quote, adds it to the field. */
  lemma ScanQuotedHead(f: string, rest: string, current: string, done: seq<string>)
    requires |f| > 0
    ensures Scan(DoubleQuotes(f) + "\"" + rest, true, current, done)
            == Scan(DoubleQuotes(f[1..]) + "\"" + rest, true, current + [f[0]], done)
  {
    var tail := DoubleQuotes(f[1..]) + "\"" + rest;
    var head := if f[0] == '"' then "\"\"" else [f[0]];
    assert DoubleQuotes(f) == head + DoubleQuotes(f[1..]);
    assert DoubleQuotes(f) + "\"" + rest == head + tail;
    if f[0] == '"' {
      ScanDoubledQuote(tail, current, done);
      assert current + "\"" == current + [f[0]];
    } else {
      ScanOrdinary(f[0], tail, true, current, done);
    }
  }

  lemma ScanClosingQuote(rest: string, current: string, done: seq<string>)
    requires |rest| == 0 || rest[0] == ','
    ensures Scan("\"" + rest, true, current, done) == Scan(rest, false, current, done)
  {
    var s := "\"" + rest;
    assert s[0] == '"' && s[1..] == rest;
  }

  lemma ScanDoubledQuote(tail: string, current: string, done: seq<string>)
    ensures Scan("\"\"" + tail, true, current, done) == Scan(tail, true, current + "\"", done)
  {
    var s := "\"\"" + tail;
    assert s[0] == '"' && s[1] == '"' && s[2..] == tail;
  }

  lemma ScanOrdinary(c: char, tail: string, inQuotes: bool, current: string, done: seq<string>)
    requires c != '"' && (c != ',' || inQuotes)
    ensures Scan([c] + tail, inQuotes, current, done) == Scan(tail, inQuotes, current + [c], done)
  {
    var s := [c] + tail;
    assert s[0] == c && s[1..] == tail;
  }

  /** An escaped field followed by a comma or the end of the line is read back unchanged. */
  lemma ScanField(f: string, rest: string, done: seq<string>)
    requires |rest| == 0 || rest[0] == ','
    ensures Scan(EscapeCsv(Some(f)) + rest, false, "", done) == Scan(rest, false, f, done)
  {
    if NeedsQuotes(f) {
      assert EscapeCsv(Some(f)) == "\"" + DoubleQuotes(f) + "\"";
      ScanQuotedField(f, rest, done);
    } else {
      assert EscapeCsv(Some(f)) == f;
      ScanPlainField(f, rest, done);
    }
  }

  lemma ScanQuotedField(f: string, rest: string, done: seq<string>)
    requires |rest| == 0 || rest[0] == ','
    ensures Scan("\"" + DoubleQuotes(f) + "\"" + rest, false, "", done) == Scan(rest, false, f, done)
  {
    assert "\"" + DoubleQuotes(f) + "\"" + rest == "\"" + (DoubleQuotes(f) + "\"" + rest);
    ScanOpeningQuote(DoubleQuotes(f) + "\"" + rest, "", done);
    ScanQuoted(f, rest, "", done);
    assert "" + f == f;
  }

  lemma ScanPlainField(f: string, rest: string, done: seq<string>)
    requires ',' !in f && '"' !in f
    ensures Scan(f + rest, false, "", done) == Scan(rest, false, f, done)
  {
    ScanPlain(f, rest, "", done);
    assert "" + f == f;
  }

  lemma ScanOpeningQuote(body: string, current: string, done: seq<string>)
    ensures Scan("\"" + body, false, current, done) == Scan(body, true, current, done)
  {
    assert ("\"" + body)[1..] == body;
  }

  lemma {:induction false} ScanEscapedLine(fields: seq<string>, done: seq<string>)
    requires |fields| >= 1
    ensures Scan(Join(EscapeAll(fields), ","), false, "", done) == done + fields
  {
    if |fields| == 1 {
      ScanEscapedSingle(fields, done);
    } else {
      ScanEscapedStep(fields, done);
      ScanEscapedLine(fields[1..], done + [fields[0]]);
      ConsTail(done, fields);
    }
  }

  lemma ScanEscapedSingle(fields: seq<string>, done: seq<string>)
    requires |fields| == 1
    ensures Scan(Join(EscapeAll(fields), ","), false, "", done) == done + fields
  {
    assert Join(EscapeAll(fields), ",") == EscapeCsv(Some(fields[0])) + "";
    ScanField(fields[0], "", done);
    assert [fields[0]] == fields;
  }

  lemma AppendAssoc<T>(a: seq<T>, b: seq<T>, c: seq<T>)
    ensures a + b + c == a + (b + c)
  {
  }

  lemma ConsTail<T>(done: seq<T>, s: seq<T>)
    requires |s| >= 1
    ensures done + [s[0]] + s[1..] == done + s
  {
    assert [s[0]] + s[1..] == s;
  }

  /** The first escaped field of a line of several is read up to its comma. */
  lemma ScanEscapedStep(fields: seq<string>, done: seq<string>)
    requires |fields| >= 2
    ensures Scan(Join(EscapeAll(fields), ","), false, "", done)
            == Scan(Join(EscapeAll(fields[1..]), ","), false, "", done + [fields[0]])
  {
    var escaped := EscapeAll(fields);
    assert escaped[1..] == EscapeAll(fields[1..]);
    assert Join(escaped, ",") == escaped[0] + "," + Join(escaped[1..], ",");
    ScanFieldComma(fields[0], Join(escaped[1..], ","), done);
  }

  lemma ScanFieldComma(f: string, tail: string, done: seq<string>)
    ensures Scan(EscapeCsv(Some(f)) + "," + tail, false, "", done) == Scan(tail, false, "", done + [f])
  {
    assert EscapeCsv(Some(f)) + "," + tail == EscapeCsv(Some(f)) + ("," + tail);
    ScanField(f, "," + tail, done);
    ScanCommaOutside(tail, f, done);
  }

  lemma ScanCommaOutside(tail: string, current: string, done: seq<string>)
    ensures Scan("," + tail, false, current, done) == Scan(tail, false, "", done + [current])
  {
    assert ("," + tail)[1..] == tail;
  }

  /** Round trip: parsing the comma-join of escaped fields gives back exactly those fields,
      commas, quotes and line breaks included. */
  lemma ParseEscapedLine(fields: seq<string>)
    requires |fields| >= 1
    ensures ParseFields(Join(EscapeAll(fields), ",")) == fields
  {
    ScanEscapedLine(fields, []);
  }

  // ---------------------------------------------------------------------
  // Export

  function ExportFields(p: Record): (fields: seq<string>)
    ensures |fields| == 9 && forall i :: 0 <= i < 9 ==> fields[i] == Get(p, FieldNames[i])
  {
    seq(9, i requires 0 <= i < 9 => Get(p, FieldNames[i]))
  }

  function RowLine(p: Record): string
  {
    Join(EscapeAll(ExportFields(p)), ",")
  }

  /** `headers.join(',')` */
  const HeaderLine: string := Join(Headers, ",")

  /** One line per property, each ended by a line break. */
  function RowsText(properties: seq<Record>): string
  {
    if |properties| == 0 then "" else RowLine(properties[0]) + "\n" + RowsText(properties[1..])
  }

  function CsvText(properties: seq<Record>): string
  {
    HeaderLine + "\n" + RowsText(properties)
  }

  lemma {:induction false} RowsTextSnoc(properties: seq<Record>, p: Record)
    ensures RowsText(properties + [p]) == RowsText(properties) + (RowLine(p) + "\n")
  {
    if |properties| > 0 {
      var head := RowLine(properties[0]) + "\n";
      assert (properties + [p])[1..] == properties[1..] + [p];
      RowsTextSnoc(properties[1..], p);
      AppendAssoc(head, RowsText(properties[1..]), RowLine(p) + "\n");
    } else {
      assert properties + [p] == [p];
      assert RowsText([p]) == RowLine(p) + "\n" + "";
    }
  }

  /** convertToCSV: the header line, then one line per property. */
  method ConvertToCsv(properties: seq<Record>) returns (csv: string)
    ensures csv == CsvText(properties)
  {
    csv := HeaderLine + "\n";
    CsvTextEmpty(properties);
    var i := 0;
    while i < |properties|
      invariant 0 <= i <= |properties|
      invariant csv == CsvText(properties[..i])
    {
      var row := EscapeAll(ExportFields(properties[i]));
      CsvTextSnoc(properties, i);
      csv := csv + Join(row, ",") + "\n";
      i := i + 1;
    }
    assert properties[..i] == properties;
  }

  lemma CsvTextEmpty(properties: seq<Record>)
    ensures CsvText(properties[..0]) == HeaderLine + "\n"
  {
    assert properties[..0] == [];
    assert HeaderLine + "\n" + "" == HeaderLine + "\n";
  }

  lemma CsvTextSnoc(properties: seq<Record>, i: int)
    requires 0 <= i < |properties|
    ensures CsvText(properties[..i + 1]) == CsvText(properties[..i]) + RowLine(properties[i]) + "\n"
  {
    TextSnoc(HeaderLine + "\n", properties, i);
  }

  /** The same after any leading text. */
  lemma TextSnoc(h: string, properties: seq<Record>, i: int)
    requires 0 <= i < |properties|
    ensures h + RowsText(properties[..i + 1]) == h + RowsText(properties[..i]) + RowLine(properties[i]) + "\n"
  {
    assert properties[..i + 1] == properties[..i] + [properties[i]];
    RowsTextSnoc(properties[..i], properties[i]);
    var a := RowsText(properties[..i]);
    var b := RowLine(properties[i]);
    AppendAssoc(h, a, b + "\n");
    AppendAssoc(h + a, b, "\n");
  }

  /** No line break inside a field means none inside its row. */
  lemma RowLineSingle(p: Record)
    requires forall k :: 0 <= k < 9 ==> '\n' !in Get(p, FieldNames[k])
    ensures '\n' !in RowLine(p)
  {
    var fields := ExportFields(p);
    var escaped := EscapeAll(fields);
    forall k | 0 <= k < 9
      ensures '\n' !in escaped[k]
    {
      assert fields[k] == Get(p, FieldNames[k]);
      EscapeChars(fields[k], '\n');
    }
    JoinLacks(escaped, ",", '\n');
  }

  function RowLines(properties: seq<Record>): (lines: seq<string>)
    ensures |lines| == |properties|
  {
    seq(|properties|, i requires 0 <= i < |properties| => RowLine(properties[i]))
  }

  predicate SingleLineFields(properties: seq<Record>)
  {
    forall i, k :: 0 <= i < |properties| && 0 <= k < 9 ==> '\n' !in Get(properties[i], FieldNames[k])
  }

  lemma {:induction false} SplitRows(properties: seq<Record>)
    requires SingleLineFields(properties)
    ensures Split(RowsText(properties), '\n') == RowLines(properties) + [""]
  {
    if |properties| > 0 {
      var p := properties[0];
      SingleLineTail(properties);
      RowLineSingle(p);
      SplitRows(properties[1..]);
      SplitAppend(RowLine(p), '\n', RowsText(properties[1..]));
      RowLinesCons(properties);
      AppendAssoc([RowLine(p)], RowLines(properties[1..]), [""]);
    }
  }

  lemma SingleLineTail(properties: seq<Record>)
    requires SingleLineFields(properties) && |properties| > 0
    ensures forall k :: 0 <= k < 9 ==> '\n' !in Get(properties[0], FieldNames[k])
    ensures SingleLineFields(properties[1..])
  {
    forall i, k | 0 <= i < |properties[1..]| && 0 <= k < 9
      ensures '\n' !in Get(properties[1..][i], FieldNames[k])
    {
      assert properties[1..][i] == properties[i + 1];
    }
  }

  lemma RowLinesCons(properties: seq<Record>)
    requires |properties| > 0
    ensures RowLines(properties) == [RowLine(properties[0])] + RowLines(properties[1..])
  {
  }

  // ---------------------------------------------------------------------
  // Import

  /** `lines.filter(line => line.trim())` */
  function NonBlankLines(lines: seq<string>): (r: seq<string>)
    ensures |r| <= |lines|
    ensures forall k :: 0 <= k < |r| ==> JsTrim(r[k]) != ""
  {
    if |lines| == 0 then []
    else (if JsTrim(lines[0]) != "" then [lines[0]] else []) + NonBlankLines(lines[1..])
  }

  lemma {:induction false} NonBlankKeeps(lines: seq<string>)
    requires forall k :: 0 <= k < |lines| ==> JsTrim(lines[k]) != ""
    ensures NonBlankLines(lines + [""]) == lines
  {
    if |lines| == 0 {
      assert lines + [""] == [""];
      assert JsTrim("") == "";
      assert NonBlankLines([""]) == [] + NonBlankLines([]);
    } else {
      assert (lines + [""])[1..] == lines[1..] + [""];
      NonBlankKeeps(lines[1..]);
    }
  }

  function OrNow(value: string, now: string): string
  {
    if value == "" then now else value
  }

  /** One header's assignment: known headers set their field, the two dates replaced by the
      current time when empty; unknown headers are ignored. */
  function Put(p: Record, header: string, value: string, now: string): Record
  {
    match header
    case "사건번호" => p["caseNumber" := value]
    case "매물명" => p["name" := value]
    case "매물유형" => p["type" := value]
    case "위치" => p["location" := value]
    case "지역" => p["region" := value]
    case "구/군" => p["district" := value]
    case "메모" => p["notes" := value]
    case "생성일시" => p["createdAt" := OrNow(value, now)]
    case "수정일시" => p["updatedAt" := OrNow(value, now)]
    case _ => p
  }

  /** `values[index] || ''` */
  function ValueAt(values: seq<string>, index: int): string
  {
    if 0 <= index < |values| then values[index] else ""
  }

  /** The object after the headers have been walked in order. */
  function Assigned(headers: seq<string>, values: seq<string>, now: string): Record
  {
    if |headers| == 0 then map[]
    else
      var n := |headers| - 1;
      Put(Assigned(headers[..n], values, now), headers[n], ValueAt(values, n), now)
  }

  /** A property needs a case number or a name. */
  predicate HasKeyField(p: Record)
  {
    Get(p, "caseNumber") != "" || Get(p, "name") != ""
  }

  /** createPropertyFromCSV, without the generated identifier. */
  function PropertyFromColumns(headers: seq<string>, values: seq<string>, now: string): (r: Option<Record>)
    ensures r.Some? ==> HasKeyField(r.value) && r.value == Assigned(headers, values, now)
    ensures r.None? ==> !HasKeyField(Assigned(headers, values, now))
  {
    var property := Assigned(headers, values, now);
    if !HasKeyField(property) then None else Some(property)
  }

  method CreatePropertyFromCsv(headers: seq<string>, values: seq<string>, now: string)
    returns (r: Option<Record>)
    ensures r == PropertyFromColumns(headers, values, now)
  {
    var property: Record := map[];
    var index := 0;
    while index < |headers|
      invariant 0 <= index <= |headers|
      invariant property == Assigned(headers[..index], values, now)
    {
      var value := if index < |values| then values[index] else "";
      assert headers[..index + 1][..index] == headers[..index];
      property := Put(property, headers[index], value, now);
      index := index + 1;
    }
    assert headers[..index] == headers;
    if !HasKeyField(property) {
      return None;
    }
    return Some(property);
  }

  /** The record the export headers build from nine values. */
  function Expected(values: seq<string>, now: string): Record
    requires |values| == 9
  {
    map["caseNumber" := values[0], "name" := values[1], "type" := values[2], "location" := values[3],
        "region" := values[4], "district" := values[5], "notes" := values[6],
        "createdAt" := OrNow(values[7], now), "updatedAt" := OrNow(values[8], now)]
  }

  /** The export headers, in order, assign each exported field its own column. */
  lemma AssignedHeaders(h: seq<string>, values: seq<string>, now: string)
    requires h == Headers && |values| == 9
    ensures Assigned(h, values, now) == Expected(values, now)
  {
    assert h[..9] == h;
    assert h[..0] == [];
    AssignedStep(h, values, now, 0);
    AssignedStep(h, values, now, 1);
    AssignedStep(h, values, now, 2);
    AssignedStep(h, values, now, 3);
    AssignedStep(h, values, now, 4);
    AssignedStep(h, values, now, 5);
    AssignedStep(h, values, now, 6);
    AssignedStep(h, values, now, 7);
    AssignedStep(h, values, now, 8);
  }

  lemma AssignedStep(h: seq<string>, values: seq<string>, now: string, k: nat)
    requires k < |h|
    ensures Assigned(h[..k + 1], values, now) == Put(Assigned(h[..k], values, now), h[k], ValueAt(values, k), now)
  {
    assert h[..k + 1][..k] == h[..k];
  }

  /** A row is kept when its first field is not blank and it makes a property. */
  function ImportRow(headers: seq<string>, line: string, now: string): Option<Record>
  {
    var values := ParseFields(line);
    if |values| > 0 && JsTrim(values[0]) != "" then PropertyFromColumns(headers, values, now) else None
  }

  function ImportRows(headers: seq<string>, lines: seq<string>, now: string): (r: seq<Record>)
    ensures |r| <= |lines|
    ensures forall k :: 0 <= k < |r| ==> HasKeyField(r[k])
  {
    if |lines| == 0 then []
    else
      var n := |lines| - 1;
      ImportRows(headers, lines[..n], now)
      + match ImportRow(headers, lines[n], now) case Some(p) => [p] case None => []
  }

  datatype ImportError = TooFewLines | NoValidRows

  /** parseCSV: at least a header and one data line, and at least one property. */
  function Import(content: string, now: string): (r: Result<seq<Record>, ImportError>)
    ensures |NonBlankLines(Split(content, '\n'))| < 2 <==> r == Err(TooFewLines)
    ensures r.Ok? ==> 1 <= |r.value| < |Split(content, '\n')|
    ensures r.Ok? ==> forall k :: 0 <= k < |r.value| ==> HasKeyField(r.value[k])
  {
    var lines := NonBlankLines(Split(content, '\n'));
    if |lines| < 2 then Err(TooFewLines)
    else
      var properties := ImportRows(ParseFields(lines[0]), lines[1..], now);
      if |properties| == 0 then Err(NoValidRows) else Ok(properties)
  }

  /** parseCSV, returning what it would hand to the import confirmation. */
  method ParseCsv(content: string, now: string) returns (r: Result<seq<Record>, ImportError>)
    ensures r == Import(content, now)
  {
    var lines := NonBlankLines(Split(content, '\n'));
    if |lines| < 2 {
      return Err(TooFewLines);
    }
    var headers := ParseCsvLine(lines[0]);
    var properties := ImportLines(headers, lines[1..], now);
    if |properties| == 0 {
      return Err(NoValidRows);
    }
    return Ok(properties);
  }

  /** The loop of parseCSV over the data lines. */
  method ImportLines(headers: seq<string>, rows: seq<string>, now: string) returns (properties: seq<Record>)
    ensures properties == ImportRows(headers, rows, now)
  {
    properties := [];
    var i := 0;
    assert rows[..0] == [];
    while i < |rows|
      invariant 0 <= i <= |rows|
      invariant properties == ImportRows(headers, rows[..i], now)
    {
      ImportRowsSnoc(headers, rows, i, now);
      var row := ImportLine(headers, rows[i], now);
      if row.Some? {
        properties := properties + [row.value];
      }
      i := i + 1;
    }
    assert rows[..i] == rows;
  }

  /** One data line of parseCSV: skipped when its first field is blank. */
  method ImportLine(headers: seq<string>, line: string, now: string) returns (r: Option<Record>)
    ensures r == ImportRow(headers, line, now)
  {
    var values := ParseCsvLine(line);
    if |values| > 0 && JsTrim(values[0]) != "" {
      r := CreatePropertyFromCsv(headers, values, now);
    } else {
      r := None;
    }
  }

  lemma ImportRowsSnoc(headers: seq<string>, rows: seq<string>, i: int, now: string)
    requires 0 <= i < |rows|
    ensures ImportRows(headers, rows[..i + 1], now)
            == ImportRows(headers, rows[..i], now) + match ImportRow(headers, rows[i], now) case Some(p) => [p] case None => []
  {
    assert rows[..i + 1][..i] == rows[..i];
  }

  // ---------------------------------------------------------------------
  // Export then import

  /** Headers that join into a plain line: at least one, the first starting with a visible
      character, none holding a quote, a line break or a comma. */
  predicate PlainHeaders(h: seq<string>)
  {
    |h| >= 1 && |h[0]| >= 1 && !IsJsSpace(h[0][0])
    && forall k :: 0 <= k < |h| ==> '"' !in h[k] && '\n' !in h[k] && ',' !in h[k]
  }

  lemma HeadersPlain()
    ensures PlainHeaders(Headers)
  {
  }

  /** A plain header line reads back as its headers. */
  lemma HeaderLineParses(h: seq<string>)
    requires PlainHeaders(h)
    ensures ParseFields(Join(h, ",")) == h
  {
    HeaderLinePlain(h);
    ParseWithoutQuotes(Join(h, ","));
    SplitJoin(h, ',');
  }

  /** A plain header line is neither blank nor broken over lines, and holds no quote. */
  lemma HeaderLinePlain(h: seq<string>)
    requires PlainHeaders(h)
    ensures '"' !in Join(h, ",") && '\n' !in Join(h, ",")
    ensures JsTrim(Join(h, ",")) != ""
  {
    JoinLacks(h, ",", '"');
    JoinLacks(h, ",", '\n');
    JoinFirst(h, ",");
    TrimNonBlank(Join(h, ","), IsJsSpace, 0);
  }

  /** The row of a property whose case number is not blank is not blank either. */
  lemma RowLineNotBlank(p: Record)
    requires JsTrim(Get(p, "caseNumber")) != ""
    ensures JsTrim(RowLine(p)) != ""
  {
    var fields := ExportFields(p);
    assert fields[0] == Get(p, "caseNumber");
    var i := NonSpaceWitness(fields[0], IsJsSpace);
    assert EscapeAll(fields)[0] == EscapeCsv(Some(fields[0]));
    EscapeChars(fields[0], fields[0][i]);
    JoinHead(EscapeAll(fields), ",", fields[0][i]);
    var line := RowLine(p);
    var j :| 0 <= j < |line| && line[j] == fields[0][i];
    TrimNonBlank(line, IsJsSpace, j);
  }

  /** A property whose case number is not blank exports a row that imports back. */
  lemma ImportExportedRow(h: seq<string>, p: Record, now: string)
    requires h == Headers
    requires JsTrim(Get(p, "caseNumber")) != ""
    ensures ImportRow(h, RowLine(p), now) == Some(Expected(ExportFields(p), now))
  {
    var fields := ExportFields(p);
    assert fields[0] == Get(p, "caseNumber");
    ParseEscapedLine(fields);
    AssignedHeaders(h, fields, now);
    ExpectedHasKey(fields, now);
    ImportRowOf(h, RowLine(p), fields, now);
  }

  /** A row whose fields are known, the first not blank, imports as their assignment. */
  lemma ImportRowOf(h: seq<string>, line: string, values: seq<string>, now: string)
    requires ParseFields(line) == values && |values| > 0 && JsTrim(values[0]) != ""
    requires HasKeyField(Assigned(h, values, now))
    ensures ImportRow(h, line, now) == Some(Assigned(h, values, now))
  {
  }

  /** The expected object of a row with a non-blank case number has its key field. */
  lemma ExpectedHasKey(values: seq<string>, now: string)
    requires |values| == 9 && JsTrim(values[0]) != ""
    ensures HasKeyField(Expected(values, now))
  {
    assert Get(Expected(values, now), "caseNumber") == values[0];
  }

  /** Rows that each import to a property import to those properties, in order. */
  lemma {:induction false} ImportRowsAll(h: seq<string>, lines: seq<string>, now: string, out: seq<Record>)
    requires |lines| == |out|
    requires forall i {:trigger ImportRow(h, lines[i], now)} :: 0 <= i < |lines| ==> ImportRow(h, lines[i], now) == Some(out[i])
    ensures ImportRows(h, lines, now) == out
  {
    if |lines| > 0 {
      var n := |lines| - 1;
      ImportRowsAll(h, lines[..n], now, out[..n]);
      assert out == out[..n] + [out[n]];
    }
  }

  /** What importing the export yields, property by property. */
  function Imported(properties: seq<Record>, now: string): (r: seq<Record>)
    ensures |r| == |properties|
  {
    seq(|properties|, i requires 0 <= i < |properties| => Expected(ExportFields(properties[i]), now))
  }

  /** Export then import: every property with a non-blank case number and single-line fields
      comes back, in order, with its nine exported fields; empty dates become the import time. */
  lemma ExportImportRoundTrip(properties: seq<Record>, now: string)
    requires |properties| >= 1 && SingleLineFields(properties)
    requires forall i :: 0 <= i < |properties| ==> JsTrim(Get(properties[i], "caseNumber")) != ""
    ensures Import(CsvText(properties), now) == Ok(Imported(properties, now))
  {
    ExportedLines(properties);
    HeadersPlain();
    HeaderLineParses(Headers);
    var h := Headers;
    var out := Imported(properties, now);
    forall i | 0 <= i < |properties|
      ensures ImportRow(h, RowLines(properties)[i], now) == Some(out[i])
    {
      ImportExportedRow(h, properties[i], now);
    }
    ImportRowsAll(h, RowLines(properties), now, out);
    var lines := [HeaderLine] + RowLines(properties);
    assert lines[0] == HeaderLine && lines[1..] == RowLines(properties);
  }

  lemma RowLinesNotBlank(properties: seq<Record>)
    requires forall i :: 0 <= i < |properties| ==> JsTrim(Get(properties[i], "caseNumber")) != ""
    ensures forall k :: 0 <= k < |properties| ==> JsTrim(RowLines(properties)[k]) != ""
  {
    forall k | 0 <= k < |properties|
      ensures JsTrim(RowLines(properties)[k]) != ""
    {
      RowLineNotBlank(properties[k]);
    }
  }

  /** The non-blank lines of the export are the header line and one row per property. */
  lemma ExportedLines(properties: seq<Record>)
    requires SingleLineFields(properties)
    requires forall i :: 0 <= i < |properties| ==> JsTrim(Get(properties[i], "caseNumber")) != ""
    ensures NonBlankLines(Split(CsvText(properties), '\n')) == [HeaderLine] + RowLines(properties)
  {
    HeadersPlain();
    HeaderLinePlain(Headers);
    LinesUnder(HeaderLine, properties);
  }

  /** The same for any single-line, non-blank header line. */
  lemma LinesUnder(h: string, properties: seq<Record>)
    requires '\n' !in h && JsTrim(h) != ""
    requires SingleLineFields(properties)
    requires forall i :: 0 <= i < |properties| ==> JsTrim(Get(properties[i], "caseNumber")) != ""
    ensures NonBlankLines(Split(h + "\n" + RowsText(properties), '\n')) == [h] + RowLines(properties)
  {
    SplitUnder(h, properties);
    RowLinesNotBlank(properties);
    KeepNonBlank(h, RowLines(properties));
  }

  /** A non-blank line followed by non-blank rows and an empty tail keeps all but the tail. */
  lemma KeepNonBlank(h: string, rows: seq<string>)
    requires JsTrim(h) != ""
    requires forall k :: 0 <= k < |rows| ==> JsTrim(rows[k]) != ""
    ensures NonBlankLines([h] + rows + [""]) == [h] + rows
  {
    NonBlankKeeps(rows);
    NonBlankCons(h, rows + [""]);
    AppendAssoc([h], rows, [""]);
  }

  lemma NonBlankCons(h: string, rest: seq<string>)
    requires JsTrim(h) != ""
    ensures NonBlankLines([h] + rest) == [h] + NonBlankLines(rest)
  {
    assert ([h] + rest)[1..] == rest;
  }

  /** The export splits into the header line, one line per property and an empty tail. */
  lemma SplitUnder(h: string, properties: seq<Record>)
    requires '\n' !in h
    requires SingleLineFields(properties)
    ensures Split(h + "\n" + RowsText(properties), '\n') == [h] + RowLines(properties) + [""]
  {
    SplitRows(properties);
    SplitAppend(h, '\n', RowsText(properties));
    assert [h] + (RowLines(properties) + [""]) == [h] + RowLines(properties) + [""];
  }

  /** Every exported field but the two dates comes back as it was; the dates too when set. */
  lemma ImportedFields(p: Record, now: string)
    ensures var q := Expected(ExportFields(p), now);
            forall i :: 0 <= i < 7 ==> Get(q, FieldNames[i]) == Get(p, FieldNames[i])
    ensures Get(p, "createdAt") != "" ==> Get(Expected(ExportFields(p), now), "createdAt") == Get(p, "createdAt")
    ensures Get(p, "updatedAt") != "" ==> Get(Expected(ExportFields(p), now), "updatedAt") == Get(p, "updatedAt")
  {
    var fields := ExportFields(p);
    forall i | 0 <= i < 9
      ensures Get(Expected(fields, now), FieldNames[i]) == if i < 7 then fields[i] else OrNow(fields[i], now)
    {
      ExpectedAt(fields, now, i);
    }
    assert FieldNames[7] == "createdAt" && FieldNames[8] == "updatedAt";
  }

  /** Each column of the expected object holds its field; the dates fall back to the time. */
  lemma ExpectedAt(values: seq<string>, now: string, i: int)
    requires |values| == 9 && 0 <= i < 9
    ensures Get(Expected(values, now), FieldNames[i]) == if i < 7 then values[i] else OrNow(values[i], now)
  {
    if i == 0 {
      assert FieldNames[0] == "caseNumber";
    } else if i == 1 {
      assert FieldNames[1] == "name";
    } else if i == 2 {
      assert FieldNames[2] == "type";
    } else if i == 3 {
      assert FieldNames[3] == "location";
    } else if i == 4 {
      assert FieldNames[4] == "region";
    } else if i == 5 {
      assert FieldNames[5] == "district";
    } else if i == 6 {
      assert FieldNames[6] == "notes";
    } else if i == 7 {
      assert FieldNames[7] == "createdAt";
    } else {
      assert FieldNames[8] == "updatedAt";
    }
  }

  // ---------------------------------------------------------------------
  // File types

  const ValidTypes: seq<string> :=
    ["text/csv", "application/vnd.ms-excel", "application/vnd.openxmlformats-officedocument.spreadsheetml.sheet"]
  const ValidExtensions: seq<string> := [".csv", ".xls", ".xlsx"]

  /** isValidFileType: an accepted MIME type, or a name ending in .csv, .xls or .xlsx in any case. */
  function IsValidFileType(fileType: string, fileName: string): (ok: bool)
    ensures fileType in ValidTypes ==> ok
    ensures ok <==> fileType in ValidTypes || exists e | e in ValidExtensions :: EndsWith(Lower(fileName), e)
  {
    var name := Lower(fileName);
    fileType in ValidTypes || exists e | e in ValidExtensions :: EndsWith(name, e)
  }

  /** The suffix is compared without regard to ASCII case: "REPORT.XLSX" is accepted with
      any MIME type, and a name with another suffix only by its type. */
  lemma SuffixAnyCase(fileType: string, fileName: string)
    requires |fileName| >= 5 && fileName[|fileName| - 5..] == ".XLSX"
    ensures IsValidFileType(fileType, fileName)
  {
    var name := Lower(fileName);
    assert name[|name| - 5..] == ".xlsx";
    assert EndsWith(name, ValidExtensions[2]);
  }
}
