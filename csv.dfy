/** The CSV text the front end builds for downloads: `exportToCSV` in
    src/utils/formatters.js and `downloadCSV` in the report dialog. Both write a BOM,
    the first row's keys joined by ',' (not escaped), '\n', and one line per row;
    a field that contains ',' or '"' is wrapped in quotes with its quotes doubled.
    A reader for that format is given too, and the round trip is proved. */
module Csv {
  import opened Wrappers
  import opened Js

  /** An object as `Object.keys` / `Object.values` see it: its properties in order. */
  type Row = seq<(string, Value)>

  function Keys(row: Row): (ks: seq<string>)
    ensures |ks| == |row|
  {
    seq(|row|, i requires 0 <= i < |row| => row[i].0)
  }

  /** The byte order mark '﻿' put in front of the text. */
  const Bom := "\U{FEFF}"

  /** `s.replace(/"/g, '""')`. */
  function DoubleQuotes(s: string): string {
    if s == "" then ""
    else (if s[0] == '"' then "\"\"" else [s[0]]) + DoubleQuotes(s[1..])
  }

  /** The inverse of DoubleQuotes: every '""' read back as '"'. */
  function HalveQuotes(s: string): string {
    if s == "" then ""
    else if |s| >= 2 && s[0] == '"' && s[1] == '"' then "\"" + HalveQuotes(s[2..])
    else [s[0]] + HalveQuotes(s[1..])
  }

  lemma {:induction false} HalveDoubleQuotes(s: string)
    ensures HalveQuotes(DoubleQuotes(s)) == s
  {
    if s != "" {
      HalveDoubleQuotes(s[1..]);
      var d := DoubleQuotes(s[1..]);
      if s[0] == '"' {
        assert DoubleQuotes(s) == "\"\"" + d;
        assert ("\"\"" + d)[2..] == d;
      } else {
        assert DoubleQuotes(s) == [s[0]] + d;
        assert ([s[0]] + d)[1..] == d;
      }
    }
  }

  /** DoubleQuotes adds no character other than '"'. */
  lemma {:induction false} DoubleQuotesKeeps(s: string, c: char)
    requires c != '"' && c !in s
    ensures c !in DoubleQuotes(s)
  {
    if s != "" {
      DoubleQuotesKeeps(s[1..], c);
    }
  }

  /** `s.includes(',') || s.includes('"')`. */
  predicate NeedsQuoting(s: string) {
    Includes(s, ",") || Includes(s, "\"")
  }

  /** A one-character `includes` is membership. */
  lemma IncludesChar(s: string, c: char)
    ensures Includes(s, [c]) <==> c in s
  {
    if c in s {
      var i :| 0 <= i < |s| && s[i] == c;
      assert IncludesAt(s, [c], i);
    }
    if Includes(s, [c]) {
      var i :| 0 <= i <= |s| - 1 && IncludesAt(s, [c], i);
      assert s[i] == s[i..i + 1][0];
    }
  }

  lemma NeedsQuotingIff(s: string)
    ensures NeedsQuoting(s) <==> ',' in s || '"' in s
  {
    IncludesChar(s, ',');
    IncludesChar(s, '"');
  }

  /** `"${s.replace(/"/g, '""')}"`. */
  function Quote(s: string): string {
    "\"" + DoubleQuotes(s) + "\""
  }

  /** How `Array.prototype.join` prints one element: null and undefined as ''. */
  function JoinText(v: Value): string {
    if v.Null? || v.Undefined? then "" else ToStr(v)
  }

  /** The escaping rule both encoders apply to a field's text. */
  function EscapeText(s: string): string {
    if NeedsQuoting(s) then Quote(s) else s
  }

  function EscapeAll(texts: seq<string>): (r: seq<string>)
    ensures |r| == |texts|
  {
    seq(|texts|, i requires 0 <= i < |texts| => EscapeText(texts[i]))
  }

  /** The field texts of a row: each value as `join` prints it. */
  function Texts(row: Row): (ts: seq<string>)
    ensures |ts| == |row|
  {
    seq(|row|, i requires 0 <= i < |row| => JoinText(row[i].1))
  }

  // ----- `exportToCSV` (src/utils/formatters.js)

  /** The value map of `exportToCSV`: a string that needs it is quoted; every other
      value is returned as it is and printed later by `join`. */
  function ExportValue(v: Value): Value {
    if v.Str? && NeedsQuoting(v.s) then Str(Quote(v.s)) else v
  }

  function ExportRow(row: Row): string {
    Join(seq(|row|, i requires 0 <= i < |row| => JoinText(ExportValue(row[i].1))), ",")
  }

  /** The text handed to the Blob: BOM, header line, '\n', the rows joined by '\n'.
      No data, or an empty list, produces no document. */
  function ExportCsv(data: Option<seq<Row>>): (doc: Option<string>)
    ensures doc.Some? <==> data.Some? && |data.value| > 0
    ensures doc.Some? ==> |doc.value| > 0 && doc.value[0] == Bom[0]
  {
    if data.None? || |data.value| == 0 then None
    else
      var rows := data.value;
      var headers := Join(Keys(rows[0]), ",");
      var lines := Join(seq(|rows|, i requires 0 <= i < |rows| => ExportRow(rows[i])), "\n");
      Some(Bom + (headers + "\n" + lines))
  }

  // ----- `downloadCSV` (src/components/modals/ReportModal.jsx)

  /** The value map of `downloadCSV`: null and undefined give ''; anything else is
      `String(value)`, quoted when it needs it. */
  function ReportCell(v: Value): (cell: string)
    ensures cell == EscapeText(JoinText(v))
  {
    if v.Null? || v.Undefined? then ""
    else
      var str := ToStr(v);
      if NeedsQuoting(str) then Quote(str) else str
  }

  function ReportRow(row: Row): string {
    Join(seq(|row|, i requires 0 <= i < |row| => ReportCell(row[i].1)), ",")
  }

  function ReportCsv(data: Option<seq<Row>>): (doc: Option<string>)
    ensures doc.Some? <==> data.Some? && |data.value| > 0
    ensures doc.Some? ==> |doc.value| > 0 && doc.value[0] == Bom[0]
  {
    if data.None? || |data.value| == 0 then None
    else
      var rows := data.value;
      var headers := Join(Keys(rows[0]), ",");
      var lines := Join(seq(|rows|, i requires 0 <= i < |rows| => ReportRow(rows[i])), "\n");
      Some(Bom + headers + "\n" + lines)
  }

  // ----- the two encoders compared

  lemma NumeralHasNo(n: int, c: char)
    requires c != '-' && !IsDecimalDigit(c)
    ensures c !in IntToString(n)
  {
    var d := NatToString(if n < 0 then -n else n);
    assert forall i | 0 <= i < |d| :: IsDecimalDigit(d[i]);
    if n < 0 {
      assert IntToString(n) == "-" + d;
    }
  }

  lemma ScalarNeedsNoQuotes(v: Value)
    requires !v.Str? && !v.Arr?
    ensures !NeedsQuoting(JoinText(v))
  {
    NeedsQuotingIff(JoinText(v));
    if v.Num? {
      NumeralHasNo(v.n, ',');
      NumeralHasNo(v.n, '"');
    }
  }

  /** On strings, numbers, booleans, null and undefined the two encoders print the
      same cell: the string guard of `exportToCSV` loses nothing, since `String` of the
      other scalars never contains ',' or '"'. */
  lemma ExportCellIsReportCell(v: Value)
    requires !v.Arr?
    ensures JoinText(ExportValue(v)) == ReportCell(v)
  {
    if !v.Str? {
      ScalarNeedsNoQuotes(v);
    }
  }

  /** They differ on an array value: `String([1, 2])` is "1,2", which `downloadCSV`
      quotes and `exportToCSV` leaves bare, so it reads back as two fields. */
  lemma EncodersDifferOnArrays()
    ensures JoinText(ExportValue(Arr([Num(1), Num(2)]))) == "1,2"
    ensures ReportCell(Arr([Num(1), Num(2)])) == "\"1,2\""
  {
    var v := Arr([Num(1), Num(2)]);
    assert IntToString(1) == "1" && IntToString(2) == "2";
    var parts := seq(2, i requires 0 <= i < 2 =>
                   if v.items[i].Null? || v.items[i].Undefined? then "" else ToStr(v.items[i]));
    assert parts == ["1", "2"];
    assert parts[1..] == ["2"];
    assert Join(parts, ",") == "1" + "," + "2";
    assert ToStr(v) == "1,2";
    assert IncludesAt("1,2", ",", 1);
    assert DoubleQuotes("2") == "2";
    assert DoubleQuotes(",2") == ",2";
    assert DoubleQuotes("1,2") == "1,2";
  }

  lemma ExportRowIsReportRow(row: Row)
    requires forall i | 0 <= i < |row| :: !row[i].1.Arr?
    ensures ExportRow(row) == ReportRow(row)
  {
    var a := seq(|row|, i requires 0 <= i < |row| => JoinText(ExportValue(row[i].1)));
    var b := seq(|row|, i requires 0 <= i < |row| => ReportCell(row[i].1));
    forall i | 0 <= i < |row| ensures a[i] == b[i] {
      ExportCellIsReportCell(row[i].1);
    }
    assert a == b;
  }

  /** Without array values both functions build the same document. */
  lemma ExportCsvIsReportCsv(data: seq<Row>)
    requires forall r, i | 0 <= r < |data| && 0 <= i < |data[r]| :: !data[r][i].1.Arr?
    ensures ExportCsv(Some(data)) == ReportCsv(Some(data))
  {
    if |data| > 0 {
      var a := seq(|data|, i requires 0 <= i < |data| => ExportRow(data[i]));
      var b := seq(|data|, i requires 0 <= i < |data| => ReportRow(data[i]));
      forall i | 0 <= i < |data| ensures a[i] == b[i] {
        ExportRowIsReportRow(data[i]);
      }
      assert a == b;
      var h := Join(Keys(data[0]), ",");
      assert Bom + (h + "\n" + Join(a, "\n")) == Bom + h + "\n" + Join(b, "\n");
    }
  }

  // ----- reading the text back

  /** Decodes one field on its own: quotes stripped and halved when it is quoted. */
  function DecodeField(f: string): string {
    if |f| >= 2 && f[0] == '"' && f[|f| - 1] == '"' then HalveQuotes(f[1..|f| - 1]) else f
  }

  /** Escaping a field's text and decoding it gives the text back. */
  lemma DecodeEscapeText(s: string)
    ensures DecodeField(EscapeText(s)) == s
  {
    NeedsQuotingIff(s);
    if NeedsQuoting(s) {
      var q := Quote(s);
      assert q[1..|q| - 1] == DoubleQuotes(s);
      HalveDoubleQuotes(s);
    }
  }

  /** A string cell of `exportToCSV` decodes to the string. */
  lemma DecodeExportedString(s: string)
    ensures DecodeField(JoinText(ExportValue(Str(s)))) == s
  {
    DecodeEscapeText(s);
  }

  /** A cell of `downloadCSV` decodes to what the value prints as ('' for null). */
  lemma DecodeReportCell(v: Value)
    ensures DecodeField(ReportCell(v)) == JoinText(v)
  {
    DecodeEscapeText(JoinText(v));
  }

  /** The index of the first `c` in `s`, or |s|. */
  function IndexOf(s: string, c: char): (i: nat)
    ensures i <= |s| && (i < |s| ==> s[i] == c)
    ensures forall j | 0 <= j < i :: s[j] != c
  {
    if s == "" then 0 else if s[0] == c then 0 else 1 + IndexOf(s[1..], c)
  }

  /** `s.split(c)`. */
  function SplitOn(s: string, c: char): (parts: seq<string>)
    ensures |parts| > 0
    decreases |s|
  {
    var i := IndexOf(s, c);
    if i == |s| then [s] else [s[..i]] + SplitOn(s[i + 1..], c)
  }

  /** The text of a quoted field after its opening quote, up to the closing quote
      (a '"' not followed by another), and how many characters that used. */
  function ReadQuoted(s: string): (r: (string, nat))
    ensures r.1 <= |s|
  {
    if s == "" then ("", 0)
    else if s[0] == '"' then
      if |s| >= 2 && s[1] == '"' then
        var r := ReadQuoted(s[2..]);
        ("\"" + r.0, r.1 + 2)
      else ("", 1)
    else
      var r := ReadQuoted(s[1..]);
      ([s[0]] + r.0, r.1 + 1)
  }

  /** The fields of one line in the format above (RFC 4180 quoting). */
  function SplitFields(line: string): (fields: seq<string>)
    ensures |fields| > 0
    decreases |line|
  {
    if |line| > 0 && line[0] == '"' then
      var r := ReadQuoted(line[1..]);
      var rest := line[1 + r.1..];
      if rest != "" && rest[0] == ',' then [r.0] + SplitFields(rest[1..]) else [r.0]
    else
      var i := IndexOf(line, ',');
      if i == |line| then [line] else [line[..i]] + SplitFields(line[i + 1..])
  }

  /** A document read back: the header's keys and each line's fields. */
  function DecodeCsv(doc: string): Option<(seq<string>, seq<seq<string>>)> {
    if |doc| == 0 || doc[0] != Bom[0] then None
    else
      var lines := SplitOn(doc[1..], '\n');
      Some((SplitOn(lines[0], ','),
            seq(|lines| - 1, i requires 0 <= i < |lines| - 1 => SplitFields(lines[i + 1]))))
  }

  lemma IndexOfPrefix(p: string, c: char, rest: string)
    requires c !in p
    ensures IndexOf(p + rest, c) == |p| + IndexOf(rest, c)
    decreases |p|
  {
    if p != "" {
      assert (p + rest)[1..] == p[1..] + rest;
      IndexOfPrefix(p[1..], c, rest);
    } else {
      assert p + rest == rest;
    }
  }

  lemma JoinCons(parts: seq<string>, sep: string)
    requires |parts| >= 2
    ensures Join(parts, sep) == parts[0] + sep + Join(parts[1..], sep)
  {
  }

  /** Splitting at the first separator after a part without one. */
  lemma SplitOnStep(p: string, c: char, rest: string)
    requires c !in p
    ensures SplitOn(p + ([c] + rest), c) == [p] + SplitOn(rest, c)
  {
    var s := p + ([c] + rest);
    IndexOfPrefix(p, c, [c] + rest);
    var i := IndexOf(s, c);
    assert i == |p| < |s|;
    assert SplitOn(s, c) == [s[..i]] + SplitOn(s[i + 1..], c);
    assert s[..i] == p;
    assert s[i + 1..] == rest;
  }

  lemma {:induction false} SplitOnJoin(parts: seq<string>, c: char)
    requires |parts| > 0
    requires forall k | 0 <= k < |parts| :: c !in parts[k]
    ensures SplitOn(Join(parts, [c]), c) == parts
    decreases |parts|
  {
    var p := parts[0];
    assert c !in p;
    if |parts| == 1 {
      IndexOfPrefix(p, c, "");
      assert p + "" == p;
    } else {
      var rest := Join(parts[1..], [c]);
      assert Join(parts, [c]) == p + ([c] + rest);
      SplitOnStep(p, c, rest);
      SplitOnJoin(parts[1..], c);
    }
  }

  /** A doubled quote inside a quoted field reads as one quote. */
  lemma ReadQuotedPair(y: string)
    ensures ReadQuoted("\"\"" + y) == ("\"" + ReadQuoted(y).0, ReadQuoted(y).1 + 2)
  {
    var x := "\"\"" + y;
    assert x[0] == '"' && x[1] == '"';
    assert x[2..] == y;
  }

  /** Any other character inside a quoted field reads as itself. */
  lemma ReadQuotedPlain(c: char, y: string)
    requires c != '"'
    ensures ReadQuoted([c] + y) == ([c] + ReadQuoted(y).0, ReadQuoted(y).1 + 1)
  {
    assert ([c] + y)[1..] == y;
  }

  /** One character of a doubled text, given the rest reads back. */
  lemma ReadQuotedStep(s: string, tail: string)
    requires s != ""
    requires ReadQuoted(DoubleQuotes(s[1..]) + "\"" + tail) == (s[1..], |DoubleQuotes(s[1..])| + 1)
    ensures ReadQuoted(DoubleQuotes(s) + "\"" + tail) == (s, |DoubleQuotes(s)| + 1)
  {
    var y := DoubleQuotes(s[1..]) + "\"" + tail;
    if s[0] == '"' {
      assert DoubleQuotes(s) + "\"" + tail == "\"\"" + y;
      ReadQuotedPair(y);
      assert "\"" + s[1..] == s;
    } else {
      assert DoubleQuotes(s) + "\"" + tail == [s[0]] + y;
      ReadQuotedPlain(s[0], y);
      assert [s[0]] + s[1..] == s;
    }
  }

  lemma {:induction false} ReadQuotedOfDoubled(s: string, tail: string)
    requires tail == "" || tail[0] != '"'
    ensures ReadQuoted(DoubleQuotes(s) + "\"" + tail) == (s, |DoubleQuotes(s)| + 1)
    decreases |s|
  {
    if s == "" {
      assert DoubleQuotes(s) + "\"" + tail == "\"" + tail;
    } else {
      ReadQuotedOfDoubled(s[1..], tail);
      ReadQuotedStep(s, tail);
    }
  }

  /** A quoted field followed by the rest of its line reads back as its text. */
  lemma SplitFieldsQuoted(t: string, tail: string)
    requires tail == "" || tail[0] == ','
    ensures SplitFields(Quote(t) + tail)
            == [t] + (if tail == "" then [] else SplitFields(tail[1..]))
  {
    var d := DoubleQuotes(t);
    var line := Quote(t) + tail;
    assert line == "\"" + (d + "\"" + tail);
    assert line[0] == '"';
    assert line[1..] == d + "\"" + tail;
    ReadQuotedOfDoubled(t, tail);
    var r := ReadQuoted(line[1..]);
    assert r == (t, |d| + 1);
    assert line[1 + r.1..] == tail;
    if tail == "" {
      assert SplitFields(line) == [t];
    } else {
      assert SplitFields(line) == [t] + SplitFields(tail[1..]);
    }
  }

  /** A field without ',' or '"' followed by the rest of its line reads back as itself. */
  lemma SplitFieldsBare(t: string, tail: string)
    requires tail == "" || tail[0] == ','
    requires ',' !in t && '"' !in t
    ensures SplitFields(t + tail)
            == [t] + (if tail == "" then [] else SplitFields(tail[1..]))
  {
    var line := t + tail;
    IndexOfPrefix(t, ',', tail);
    assert line == [] || line[0] != '"' by {
      if t != "" {
        assert line[0] == t[0];
      }
    }
    var i := IndexOf(line, ',');
    assert i == |t|;
    assert line[..i] == t;
    if tail != "" {
      assert line[i + 1..] == tail[1..];
      assert SplitFields(line) == [line[..i]] + SplitFields(line[i + 1..]);
    } else {
      assert line == t;
      assert SplitFields(line) == [line];
    }
  }

  /** One escaped field followed by the rest of its line reads back as the field. */
  lemma SplitFieldsStep(t: string, tail: string)
    requires tail == "" || tail[0] == ','
    ensures SplitFields(EscapeText(t) + tail)
            == [t] + (if tail == "" then [] else SplitFields(tail[1..]))
  {
    NeedsQuotingIff(t);
    if NeedsQuoting(t) {
      SplitFieldsQuoted(t, tail);
    } else {
      SplitFieldsBare(t, tail);
    }
  }

  /** The fields of a line of escaped texts are the texts. */
  lemma {:induction false} SplitFieldsOfEscaped(texts: seq<string>)
    requires |texts| > 0
    ensures SplitFields(Join(EscapeAll(texts), ",")) == texts
    decreases |texts|
  {
    var e := EscapeAll(texts);
    if |texts| == 1 {
      SplitFieldsStep(texts[0], "");
      assert EscapeText(texts[0]) + "" == Join(e, ",");
    } else {
      assert e[1..] == EscapeAll(texts[1..]);
      var tail := "," + Join(e[1..], ",");
      assert Join(e, ",") == EscapeText(texts[0]) + tail;
      SplitFieldsStep(texts[0], tail);
      assert tail[1..] == Join(e[1..], ",");
      SplitFieldsOfEscaped(texts[1..]);
    }
  }

  lemma {:induction false} DoubleQuotesNoNewline(s: string)
    requires '\n' !in s
    ensures '\n' !in EscapeText(s)
  {
    DoubleQuotesKeeps(s, '\n');
  }

  lemma {:induction false} JoinAvoids(parts: seq<string>, sep: string, c: char)
    requires c !in sep
    requires forall k | 0 <= k < |parts| :: c !in parts[k]
    ensures c !in Join(parts, sep)
    decreases |parts|
  {
    if |parts| >= 2 {
      JoinAvoids(parts[1..], sep, c);
    }
  }

  /** What the round trip needs of the data: at least one row, no empty row, header keys
      without ',' or a line break, and no field text with a line break (the encoders do
      not quote line breaks). */
  predicate Decodable(data: seq<Row>) {
    && |data| > 0
    && (forall r | 0 <= r < |data| :: |data[r]| > 0)
    && (forall k | 0 <= k < |data[0]| :: ',' !in data[0][k].0 && '\n' !in data[0][k].0)
    && (forall r, i | 0 <= r < |data| && 0 <= i < |data[r]| :: '\n' !in JoinText(data[r][i].1))
  }

  lemma ReportRowIsEscaped(row: Row)
    ensures ReportRow(row) == Join(EscapeAll(Texts(row)), ",")
  {
    var a := seq(|row|, i requires 0 <= i < |row| => ReportCell(row[i].1));
    assert a == EscapeAll(Texts(row));
  }

  lemma ReportRowNoNewline(row: Row)
    requires forall i | 0 <= i < |row| :: '\n' !in JoinText(row[i].1)
    ensures '\n' !in ReportRow(row)
  {
    ReportRowIsEscaped(row);
    var e := EscapeAll(Texts(row));
    forall k | 0 <= k < |e| ensures '\n' !in e[k] {
      DoubleQuotesNoNewline(Texts(row)[k]);
    }
    JoinAvoids(e, ",", '\n');
  }

  /** The lines of the document of `downloadCSV`: the header line, then one per row. */
  function ReportLines(data: seq<Row>): (lines: seq<string>)
    requires |data| > 0
    ensures |lines| == |data| + 1
  {
    [Join(Keys(data[0]), ",")] + seq(|data|, i requires 0 <= i < |data| => ReportRow(data[i]))
  }

  lemma ReportCsvIsLines(data: seq<Row>)
    requires |data| > 0
    ensures ReportCsv(Some(data)).value == Bom + Join(ReportLines(data), "\n")
  {
    var lines := ReportLines(data);
    assert lines[1..] == seq(|data|, i requires 0 <= i < |data| => ReportRow(data[i]));
  }

  lemma ReportLinesNoNewline(data: seq<Row>)
    requires Decodable(data)
    ensures forall k | 0 <= k < |ReportLines(data)| :: '\n' !in ReportLines(data)[k]
  {
    var lines := ReportLines(data);
    JoinAvoids(Keys(data[0]), ",", '\n');
    forall k | 0 <= k < |lines| ensures '\n' !in lines[k] {
      if k > 0 {
        ReportRowNoNewline(data[k - 1]);
      }
    }
  }

  lemma ReportRowsDecode(data: seq<Row>)
    requires |data| > 0 && forall r | 0 <= r < |data| :: |data[r]| > 0
    ensures forall r | 0 <= r < |data| :: SplitFields(ReportLines(data)[r + 1]) == Texts(data[r])
  {
    forall r | 0 <= r < |data| ensures SplitFields(ReportLines(data)[r + 1]) == Texts(data[r]) {
      assert ReportLines(data)[r + 1] == ReportRow(data[r]);
      ReportRowDecodes(data[r]);
    }
  }

  /** The fields of a row line read back as the row's texts. */
  lemma ReportRowDecodes(row: Row)
    requires |row| > 0
    ensures SplitFields(ReportRow(row)) == Texts(row)
  {
    ReportRowIsEscaped(row);
    SplitFieldsOfEscaped(Texts(row));
  }

  /** A document of lines without line breaks reads back line by line. */
  lemma DecodeCsvOfLines(lines: seq<string>)
    requires |lines| > 0
    requires forall k | 0 <= k < |lines| :: '\n' !in lines[k]
    ensures DecodeCsv(Bom + Join(lines, "\n"))
            == Some((SplitOn(lines[0], ','), seq(|lines| - 1, i requires 0 <= i < |lines| - 1 => SplitFields(lines[i + 1]))))
  {
    var doc := Bom + Join(lines, "\n");
    assert doc[1..] == Join(lines, "\n");
    SplitOnJoin(lines, '\n');
  }

  lemma DecodedRows(lines: seq<string>, data: seq<Row>)
    requires |lines| == |data| + 1
    requires forall r | 0 <= r < |data| :: SplitFields(lines[r + 1]) == Texts(data[r])
    ensures seq(|lines| - 1, i requires 0 <= i < |lines| - 1 => SplitFields(lines[i + 1]))
            == seq(|data|, r requires 0 <= r < |data| => Texts(data[r]))
  {
  }

  /** Round trip of `downloadCSV`: reading its document back gives the first row's keys
      and every row's field texts, in order. */
  lemma ReportCsvRoundTrip(data: seq<Row>)
    requires Decodable(data)
    ensures DecodeCsv(ReportCsv(Some(data)).value)
            == Some((Keys(data[0]), seq(|data|, r requires 0 <= r < |data| => Texts(data[r]))))
  {
    var lines := ReportLines(data);
    ReportCsvIsLines(data);
    ReportLinesNoNewline(data);
    DecodeCsvOfLines(lines);
    SplitOnJoin(Keys(data[0]), ',');
    ReportRowsDecode(data);
    DecodedRows(lines, data);
  }

  /** Round trip of `exportToCSV` for data without array values. */
  lemma ExportCsvRoundTrip(data: seq<Row>)
    requires Decodable(data)
    requires forall r, i | 0 <= r < |data| && 0 <= i < |data[r]| :: !data[r][i].1.Arr?
    ensures DecodeCsv(ExportCsv(Some(data)).value)
            == Some((Keys(data[0]), seq(|data|, r requires 0 <= r < |data| => Texts(data[r]))))
  {
    ExportCsvIsReportCsv(data);
    ReportCsvRoundTrip(data);
  }

  /** A line break inside a value is written as it is, unquoted, so one row becomes
      two lines of the document. */
  lemma LineBreakIsNotQuoted()
    ensures ReportCsv(Some([[("nota", Str("a\nb"))]])) == Some(Bom + "nota\na\nb")
  {
    NeedsQuotingIff("a\nb");
    assert ReportCell(Str("a\nb")) == "a\nb";
    var row: Row := [("nota", Str("a\nb"))];
    assert Keys(row) == ["nota"];
    assert ReportRow(row) == "a\nb";
    var lines := seq(1, i requires 0 <= i < 1 => ReportRow([row][i]));
    assert lines == ["a\nb"];
    assert Join(Keys(row), ",") == "nota";
    assert Join(lines, "\n") == "a\nb";
    assert Bom + "nota" + "\n" + "a\nb" == Bom + "nota\na\nb";
  }
}
