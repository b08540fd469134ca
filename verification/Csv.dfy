/** The CSV reports' field escaping and joining (src/modules/reports/csv.service.ts), read
    back by section 2 of RFC 4180 with a line feed between records. */
module Csv {
  import opened Wrappers

  // ----- Writing -----

  /** Text columns are escaped; amounts, statuses, dates and headings are printed as they are. */
  datatype Cell = Text(value: string) | Plain(value: string)

  predicate IsSpecial(c: char) {
    c == ',' || c == '"' || c == '\n' || c == '\r'
  }

  predicate HasSpecial(s: string) {
    exists k :: 0 <= k < |s| && IsSpecial(s[k])
  }

  function DoubleQuotes(s: string): string {
    if s == "" then "" else (if s[0] == '"' then "\"\"" else [s[0]]) + DoubleQuotes(s[1..])
  }

  function CsvEscape(value: string): string {
    if value == "" then "" else if HasSpecial(value) then "\"" + DoubleQuotes(value) + "\"" else value
  }

  function Printed(c: Cell): string {
    match c
    case Text(value) => CsvEscape(value)
    case Plain(value) => value
  }

  function Join(parts: seq<string>, separator: string): string {
    if |parts| == 0 then "" else if |parts| == 1 then parts[0] else parts[0] + separator + Join(parts[1..], separator)
  }

  function PrintRow(row: seq<Cell>): string {
    Join(seq(|row|, k requires 0 <= k < |row| => Printed(row[k])), ",")
  }

  function PrintReport(rows: seq<seq<Cell>>): string {
    Join(seq(|rows|, k requires 0 <= k < |rows| => PrintRow(rows[k])), "\n")
  }

  // ----- Reading: a field or record, and the text after it -----

  /** The inside of a quoted field, up to its closing quote. */
  function ReadQuoted(s: string): (r: Option<(string, string)>)
    ensures r.Some? ==> |r.value.1| < |s|
  {
    if s == "" then None
    else if s[0] != '"' then
      match ReadQuoted(s[1..])
      case None => None
      case Some((field, rest)) => Some(([s[0]] + field, rest))
    else if |s| > 1 && s[1] == '"' then
      match ReadQuoted(s[2..])
      case None => None
      case Some((field, rest)) => Some(("\"" + field, rest))
    else Some(("", s[1..]))
  }

  function ReadBare(s: string): (r: (string, string))
    ensures |r.1| <= |s|
  {
    if s == "" || s[0] in {',', '"', '\n', '\r'} then ("", s)
    else
      var (field, rest) := ReadBare(s[1..]);
      ([s[0]] + field, rest)
  }

  function ReadField(s: string): (r: Option<(string, string)>)
    ensures r.Some? ==> |r.value.1| <= |s|
  {
    if s != "" && s[0] == '"' then ReadQuoted(s[1..]) else Some(ReadBare(s))
  }

  /** A record ends at a line feed or the end; a stray quote or carriage return is an error. */
  function ReadRecord(s: string): (r: Option<(seq<string>, string)>)
    ensures r.Some? ==> |r.value.1| <= |s| && (r.value.1 == "" || r.value.1[0] == '\n')
    decreases |s|
  {
    match ReadField(s)
    case None => None
    case Some((field, rest)) =>
      if rest == "" || rest[0] == '\n' then Some(([field], rest))
      else if rest[0] != ',' then None
      else
        match ReadRecord(rest[1..])
        case None => None
        case Some((fields, after)) => Some(([field] + fields, after))
  }

  /** One or more records; a line feed after the last one is optional. */
  function ReadReport(s: string): Option<seq<seq<string>>>
    decreases |s|
  {
    match ReadRecord(s)
    case None => None
    case Some((fields, rest)) =>
      if |rest| <= 1 then Some([fields])
      else
        match ReadReport(rest[1..])
        case None => None
        case Some(more) => Some([fields] + more)
  }

  // ----- Round trip -----

  function Values(row: seq<Cell>): (v: seq<string>)
    ensures |v| == |row|
  {
    seq(|row|, k requires 0 <= k < |row| => row[k].value)
  }

  function AllValues(rows: seq<seq<Cell>>): (v: seq<seq<string>>)
    ensures |v| == |rows|
  {
    seq(|rows|, k requires 0 <= k < |rows| => Values(rows[k]))
  }

  /** Unescaped columns hold no special character. */
  predicate PlainCellsAreSimple(row: seq<Cell>) {
    forall k :: 0 <= k < |row| && row[k].Plain? ==> !HasSpecial(row[k].value)
  }

  lemma {:induction false} QuotedReads(v: string, tail: string)
    requires tail == "" || tail[0] != '"'
    ensures ReadQuoted(DoubleQuotes(v) + "\"" + tail) == Some((v, tail))
  {
    var s := DoubleQuotes(v) + "\"" + tail;
    if v == "" {
      assert s == "\"" + tail;
    } else {
      QuotedReads(v[1..], tail);
      var inner := DoubleQuotes(v[1..]) + "\"" + tail;
      if v[0] == '"' {
        assert s == "\"\"" + inner;
        assert s[2..] == inner;
      } else {
        assert s == [v[0]] + inner;
        assert s[1..] == inner;
      }
      assert v == [v[0]] + v[1..];
    }
  }

  lemma {:induction false} BareReads(v: string, tail: string)
    requires !HasSpecial(v) && (tail == "" || IsSpecial(tail[0]))
    ensures ReadBare(v + tail) == (v, tail)
  {
    if v == "" {
      assert v + tail == tail;
    } else {
      assert forall k :: 0 <= k < |v| - 1 ==> v[1..][k] == v[k + 1];
      BareReads(v[1..], tail);
      assert (v + tail)[1..] == v[1..] + tail;
      assert v == [v[0]] + v[1..];
      assert !IsSpecial(v[0]);
    }
  }

  lemma QuotedFieldReads(v: string, tail: string)
    requires tail == "" || tail[0] != '"'
    ensures ReadField("\"" + DoubleQuotes(v) + "\"" + tail) == Some((v, tail))
  {
    hide DoubleQuotes, ReadQuoted, ReadBare;
    var inner := DoubleQuotes(v) + "\"" + tail;
    QuotedReads(v, tail);
    assert "\"" + DoubleQuotes(v) + "\"" + tail == "\"" + inner;
    assert ("\"" + inner)[1..] == inner;
  }

  lemma BareFieldReads(v: string, tail: string)
    requires !HasSpecial(v) && (tail == "" || tail[0] == ',' || tail[0] == '\n')
    ensures ReadField(v + tail) == Some((v, tail))
  {
    hide ReadQuoted, ReadBare;
    BareReads(v, tail);
    if v == "" {
      assert v + tail == tail;
    } else {
      assert !IsSpecial(v[0]) && (v + tail)[0] == v[0];
    }
  }

  /** Text is quoted only if it must be. */
  lemma QuotedOnlyIfSpecial(v: string)
    ensures CsvEscape(v) == v <==> (forall k :: 0 <= k < |v| ==> v[k] !in {',', '"', '\n', '\r'})
  {
    if HasSpecial(v) {
      QuotingLengthens(v);
    }
  }

  lemma {:induction false} QuotingLengthens(v: string)
    ensures |DoubleQuotes(v)| >= |v|
  {
    if v != "" {
      QuotingLengthens(v[1..]);
    }
  }

  /** Any cell reads back as its value, whatever separator or end follows. */
  lemma FieldReads(c: Cell, tail: string)
    requires c.Plain? ==> !HasSpecial(c.value)
    requires tail == "" || tail[0] == ',' || tail[0] == '\n'
    ensures ReadField(Printed(c) + tail) == Some((c.value, tail))
  {
    hide ReadField, DoubleQuotes;
    if HasSpecial(c.value) {
      QuotedFieldReads(c.value, tail);
    } else {
      BareFieldReads(c.value, tail);
    }
  }

  lemma LastField(s: string, field: string, rest: string)
    requires ReadField(s) == Some((field, rest)) && (rest == "" || rest[0] == '\n')
    ensures ReadRecord(s) == Some(([field], rest))
  {
  }

  lemma NextField(s: string, field: string, more: string, fields: seq<string>, rest: string)
    requires ReadField(s) == Some((field, "," + more)) && ReadRecord(more) == Some((fields, rest))
    ensures ReadRecord(s) == Some(([field] + fields, rest))
  {
    assert ("," + more)[1..] == more;
  }

  lemma {:induction false} RecordReads(row: seq<Cell>, tail: string)
    requires row != [] && PlainCellsAreSimple(row)
    requires tail == "" || tail[0] == '\n'
    ensures ReadRecord(PrintRow(row) + tail) == Some((Values(row), tail))
    decreases |row|
  {
    hide ReadRecord, ReadField, Printed;
    if |row| == 1 {
      FieldReads(row[0], tail);
      assert PrintRow(row) == Printed(row[0]);
      LastField(PrintRow(row) + tail, row[0].value, tail);
      assert Values(row) == [row[0].value];
    } else {
      var more := PrintRow(row[1..]) + tail;
      PrintRowSplit(row);
      assert PrintRow(row) + tail == Printed(row[0]) + ("," + more);
      FieldReads(row[0], "," + more);
      RecordReads(row[1..], tail);
      NextField(PrintRow(row) + tail, row[0].value, more, Values(row[1..]), tail);
      assert Values(row) == [row[0].value] + Values(row[1..]);
    }
  }

  lemma PrintRowSplit(row: seq<Cell>)
    requires |row| > 1
    ensures PrintRow(row) == Printed(row[0]) + "," + PrintRow(row[1..])
  {
    var parts := seq(|row|, k requires 0 <= k < |row| => Printed(row[k]));
    var rest := row[1..];
    assert parts[1..] == seq(|rest|, k requires 0 <= k < |rest| => Printed(rest[k]));
  }

  lemma PrintReportSplit(rows: seq<seq<Cell>>)
    requires |rows| > 1
    ensures PrintReport(rows) == PrintRow(rows[0]) + "\n" + PrintReport(rows[1..])
  {
    var parts := seq(|rows|, k requires 0 <= k < |rows| => PrintRow(rows[k]));
    var rest := rows[1..];
    assert parts[1..] == seq(|rest|, k requires 0 <= k < |rest| => PrintRow(rest[k]));
  }

  /** The one row a reader cannot see: a single empty cell at the very end of the text. */
  predicate IsBlank(row: seq<Cell>) {
    |row| == 1 && row[0].value == ""
  }

  lemma NextRecord(s: string, fields: seq<string>, more: string)
    requires ReadRecord(s) == Some((fields, "\n" + more))
    ensures ReadReport(s) == if more == "" then Some([fields])
      else if ReadReport(more).None? then None else Some([fields] + ReadReport(more).value)
  {
    assert ("\n" + more)[1..] == more;
  }

  lemma OnlyRecord(s: string, fields: seq<string>)
    requires ReadRecord(s) == Some((fields, ""))
    ensures ReadReport(s) == Some([fields])
  {
  }

  lemma AllValuesSplit(rows: seq<seq<Cell>>)
    requires rows != []
    ensures AllValues(rows) == [Values(rows[0])] + AllValues(rows[1..])
    ensures |rows| == 1 ==> AllValues(rows) == [Values(rows[0])]
  {
  }

  lemma {:induction false} ReportReads(rows: seq<seq<Cell>>)
    requires rows != [] && forall k :: 0 <= k < |rows| ==> rows[k] != [] && PlainCellsAreSimple(rows[k])
    ensures var n := |rows| - 1;
      ReadReport(PrintReport(rows)) == Some(if n > 0 && IsBlank(rows[n]) then AllValues(rows[..n]) else AllValues(rows))
    decreases |rows|
  {
    hide ReadReport, ReadRecord, PrintRow, PrintReport, PlainCellsAreSimple, IsBlank, AllValues, Values;
    var n := |rows| - 1;
    AllValuesSplit(rows);
    if n == 0 {
      PrintReportOne(rows);
      RecordReads(rows[0], "");
      assert PrintRow(rows[0]) + "" == PrintReport(rows);
      OnlyRecord(PrintReport(rows), Values(rows[0]));
    } else {
      var more := PrintReport(rows[1..]);
      PrintReportSplit(rows);
      assert PrintReport(rows) == PrintRow(rows[0]) + ("\n" + more);
      RecordReads(rows[0], "\n" + more);
      NextRecord(PrintReport(rows), Values(rows[0]), more);
      BlankIffEmpty(rows[1..]);
      AllValuesSplit(rows[..n]);
      if more == "" {
        assert rows[1] == rows[1..][0];
      } else {
        ReportReads(rows[1..]);
        assert rows[..n][1..] == rows[1..][..n - 1];
      }
    }
  }

  lemma PrintReportOne(rows: seq<seq<Cell>>)
    requires |rows| == 1
    ensures PrintReport(rows) == PrintRow(rows[0])
  {
  }

  lemma BlankIffEmpty(rows: seq<seq<Cell>>)
    requires rows != [] && rows[0] != []
    ensures PrintReport(rows) == "" <==> |rows| == 1 && IsBlank(rows[0])
  {
    if |rows| > 1 {
      PrintReportSplit(rows);
    } else {
      assert PrintReport(rows) == PrintRow(rows[0]);
      if |rows[0]| > 1 {
        PrintRowSplit(rows[0]);
      } else {
        assert PrintRow(rows[0]) == Printed(rows[0][0]);
      }
    }
  }

  /** Arbitrary text survives: the reader recovers exactly the printed cells, unless the report
      has several rows and ends in a single empty cell. The reports' rows have seven columns
      or more, so theirs always survive. */
  lemma RoundTripIff(rows: seq<seq<Cell>>)
    requires rows != [] && forall k :: 0 <= k < |rows| ==> rows[k] != [] && PlainCellsAreSimple(rows[k])
    ensures ReadReport(PrintReport(rows)) == Some(AllValues(rows)) <==> |rows| == 1 || !IsBlank(rows[|rows| - 1])
  {
    ReportReads(rows);
  }
}
