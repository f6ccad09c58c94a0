// The CSV export against a reader of section 2 of RFC 4180: records end with
// CRLF, fields are separated by commas, a field that starts with a double quote
// runs to the closing one and doubles every quote inside it.
module Csv {
  import opened Prelude

  const QUOTE := '\"'
  const COMMA := ','
  const CR := '\r'
  const LF := '\n'
  const BOM := '\U{FEFF}'

  // ---- The formula guard -----------------------------------------------------

  predicate IsFormulaStart(c: char) {
    c == '=' || c == '+' || c == '-' || c == '@' || c == '\t' || c == '\r'
  }

  predicate StartsFormula(s: string) { |s| > 0 && IsFormulaStart(s[0]) }

  predicate IsDigit(c: char) { '0' <= c <= '9' }

  predicate AllDigits(s: string) { forall i | 0 <= i < |s| :: IsDigit(s[i]) }

  // -digits, or -digits.digits, and nothing else.
  predicate IsPlainNegative(s: string) {
    exists k | 1 <= k <= |s| :: IsPlainNegativeAt(s, k)
  }

  predicate IsPlainNegativeAt(s: string, k: nat)
    requires 1 <= k <= |s|
  {
    && s[0] == '-' && k > 1 && AllDigits(s[1..k])
    && (k == |s| || (s[k] == '.' && k + 1 < |s| && AllDigits(s[k + 1..])))
  }

  // The value as text; missing values have none.
  function TextOf(value: Option<string>): string { if value.None? then "" else value.value }

  function Guarded(s: string): string {
    if StartsFormula(s) && !IsPlainNegative(s) then "'" + s else s
  }

  predicate NeedsQuotes(s: string) {
    exists i | 0 <= i < |s| :: s[i] == QUOTE || s[i] == COMMA || s[i] == CR || s[i] == LF
  }

  function Doubled(s: string): string {
    if |s| == 0 then "" else (if s[0] == QUOTE then [QUOTE, QUOTE] else [s[0]]) + Doubled(s[1..])
  }

  function Cell(value: Option<string>): string {
    var s := Guarded(TextOf(value));
    if NeedsQuotes(s) then [QUOTE] + Doubled(s) + [QUOTE] else s
  }

  function Line(cells: seq<string>): string {
    if |cells| == 0 then ""
    else if |cells| == 1 then cells[0]
    else cells[0] + [COMMA] + Line(cells[1..])
  }

  function Cells(row: seq<Option<string>>): seq<string> {
    seq(|row|, i requires 0 <= i < |row| => Cell(row[i]))
  }

  function Texts(row: seq<Option<string>>): seq<string> {
    seq(|row|, i requires 0 <= i < |row| => Guarded(TextOf(row[i])))
  }

  // Every record with its CRLF.
  function Body(rows: seq<seq<Option<string>>>): string {
    if |rows| == 0 then "" else Line(Cells(rows[0])) + [CR, LF] + Body(rows[1..])
  }

  // ---- The writer ------------------------------------------------------------

  method CsvCell(value: Option<string>) returns (s: string)
    ensures s == Cell(value)
  {
    if value.None? {
      assert !NeedsQuotes("");
      return "";
    }
    s := value.value;
    if StartsFormula(s) && !IsPlainNegative(s) {
      s := "'" + s;
    }
    if NeedsQuotes(s) {
      var quoted := DoubleQuotes(s);
      s := [QUOTE] + quoted + [QUOTE];
    }
  }

  // The global replace of each quote by two.
  method DoubleQuotes(s: string) returns (d: string)
    ensures d == Doubled(s)
  {
    d := "";
    var i := 0;
    while i < |s|
      invariant 0 <= i <= |s|
      invariant d + Doubled(s[i..]) == Doubled(s)
    {
      d := d + (if s[i] == QUOTE then [QUOTE, QUOTE] else [s[i]]);
      i := i + 1;
    }
  }

  method Join(cells: seq<string>) returns (line: string)
    ensures line == Line(cells)
  {
    if |cells| == 0 {
      return "";
    }
    var i := |cells| - 1;
    line := cells[i];
    while i > 0
      invariant 0 <= i < |cells| && line == Line(cells[i..])
    {
      i := i - 1;
      line := cells[i] + [COMMA] + line;
    }
  }

  method RecordOf(row: seq<Option<string>>) returns (line: string)
    ensures line == Line(Cells(row))
  {
    var cells := [];
    var i := 0;
    while i < |row|
      invariant 0 <= i <= |row| && cells == Cells(row[..i])
    {
      var c := CsvCell(row[i]);
      cells := cells + [c];
      i := i + 1;
    }
    assert row[..i] == row;
    line := Join(cells);
  }

  function WithBreaks(lines: seq<string>): string {
    if |lines| == 0 then "" else lines[0] + [CR, LF] + WithBreaks(lines[1..])
  }

  lemma {:induction false} BreaksAppend(lines: seq<string>, line: string)
    ensures WithBreaks(lines + [line]) == WithBreaks(lines) + line + [CR, LF]
  {
    if |lines| == 0 {
    } else {
      assert (lines + [line])[1..] == lines[1..] + [line];
      BreaksAppend(lines[1..], line);
    }
  }

  lemma {:induction false} BodyAppend(rows: seq<seq<Option<string>>>, row: seq<Option<string>>)
    ensures Body(rows + [row]) == Body(rows) + Line(Cells(row)) + [CR, LF]
  {
    if |rows| == 0 {
    } else {
      assert (rows + [row])[1..] == rows[1..] + [row];
      BodyAppend(rows[1..], row);
    }
  }

  // Byte-order mark, header record, one record per row, each ended by CRLF.
  method ToCsv(headers: seq<Option<string>>, rows: seq<seq<Option<string>>>) returns (csv: string)
    ensures csv == [BOM] + Body([headers] + rows) && csv[0] == '\U{FEFF}'
  {
    var header := RecordOf(headers);
    var lines := [header];
    BreaksAppend([], header);
    BodyAppend([], headers);
    assert [] + [header] == [header] && [] + [headers] == [headers];
    var i := 0;
    while i < |rows|
      invariant 0 <= i <= |rows|
      invariant WithBreaks(lines) == Body([headers] + rows[..i])
    {
      var line := RecordOf(rows[i]);
      BreaksAppend(lines, line);
      BodyAppend([headers] + rows[..i], rows[i]);
      assert [headers] + rows[..i] + [rows[i]] == [headers] + rows[..i + 1];
      lines := lines + [line];
      i := i + 1;
    }
    assert rows[..i] == rows;
    var out := JoinLines(lines);
    csv := [BOM] + out;
  }

  method JoinLines(lines: seq<string>) returns (out: string)
    ensures out == WithBreaks(lines)
  {
    out := "";
    var i := |lines|;
    while i > 0
      invariant 0 <= i <= |lines| && out == WithBreaks(lines[i..])
    {
      i := i - 1;
      out := lines[i] + [CR, LF] + out;
    }
  }

  // ---- The reader ------------------------------------------------------------

  // Where the reader is: at the start of a field, inside a plain one, inside a
  // quoted one, or behind a quote that either closes it or is the first of two.
  datatype Mode = FieldStart | Plain | Quoted | QuoteSeen

  datatype Reader = Reader(mode: Mode, field: string, record: seq<string>, records: seq<seq<string>>)

  function EndField(r: Reader): Reader {
    r.(mode := FieldStart, field := "", record := r.record + [r.field])
  }

  function EndRecord(r: Reader): Reader {
    r.(mode := FieldStart, field := "", record := [], records := r.records + [r.record + [r.field]])
  }

  // None: not CSV. A CR outside quotes must be followed by LF.
  function Read(r: Reader, s: string): Option<seq<seq<string>>>
    decreases |s|
  {
    if |s| == 0 then
      if r.mode.FieldStart? && r.record == [] then Some(r.records)
      else if r.mode.Quoted? then None
      else Some(r.records + [r.record + [r.field]])
    else
      var c := s[0];
      if r.mode.Quoted? then
        if c == '\"' then Read(r.(mode := QuoteSeen), s[1..]) else Read(r.(field := r.field + [c]), s[1..])
      else if c == ',' then Read(EndField(r), s[1..])
      else if c == '\r' && |s| > 1 && s[1] == '\n' then Read(EndRecord(r), s[2..])
      else if c == '\"' then
        if r.mode.QuoteSeen? then Read(r.(mode := Quoted, field := r.field + [c]), s[1..])
        else if r.mode.FieldStart? then Read(r.(mode := Quoted), s[1..])
        else None
      else if c == '\r' || c == '\n' || r.mode.QuoteSeen? then None
      else Read(r.(mode := Plain, field := r.field + [c]), s[1..])
  }

  function Parse(s: string): Option<seq<seq<string>>> { Read(Reader(FieldStart, "", [], []), s) }

  // ---- The round trip --------------------------------------------------------

  lemma {:induction false} ReadPlain(r: Reader, s: string, rest: string)
    requires (r.mode.FieldStart? && r.field == "") || r.mode.Plain?
    requires !NeedsQuotes(s) && |rest| > 0 && (rest[0] == COMMA || rest[0] == CR)
    ensures Read(r, s + rest) == Read(if |s| == 0 then r else r.(mode := Plain, field := r.field + s), rest)
    decreases |s|
  {
    if |s| == 0 {
      assert s + rest == rest;
    } else {
      assert s[0] != QUOTE && s[0] != COMMA && s[0] != CR && s[0] != LF;
      assert forall i | 0 <= i < |s[1..]| :: s[1..][i] == s[i + 1];
      assert (s + rest)[0] == s[0] && (s + rest)[1..] == s[1..] + rest;
      var r' := r.(mode := Plain, field := r.field + [s[0]]);
      assert Read(r, s + rest) == Read(r', s[1..] + rest);
      ReadPlain(r', s[1..], rest);
      assert |s| == 1 ==> s == [s[0]];
      assert r.field + [s[0]] + s[1..] == r.field + s;
    }
  }

  lemma {:induction false} ReadQuoted(r: Reader, s: string, rest: string)
    requires r.mode.Quoted?
    ensures Read(r, Doubled(s) + [QUOTE] + rest) == Read(r.(mode := QuoteSeen, field := r.field + s), rest)
    decreases |s|
  {
    var all := Doubled(s) + [QUOTE] + rest;
    if |s| == 0 {
      assert all[1..] == rest;
      assert r.field + s == r.field;
    } else {
      var tail := Doubled(s[1..]) + [QUOTE] + rest;
      var r' := r.(field := r.field + [s[0]]);
      if s[0] == QUOTE {
        assert all[1..] == [QUOTE] + tail && all[1..][1..] == tail;
      } else {
        assert all[1..] == tail;
      }
      ReadQuoted(r', s[1..], rest);
      assert r.field + [s[0]] + s[1..] == r.field + s;
    }
  }

  // A field closed by a comma or a line end.
  predicate Closes(rest: string) {
    |rest| > 0 && (rest[0] == COMMA || (rest[0] == CR && |rest| > 1 && rest[1] == LF))
  }

  function Close(r: Reader, text: string, rest: string): Option<seq<seq<string>>>
    requires Closes(rest)
  {
    if rest[0] == COMMA then Read(r.(record := r.record + [text]), rest[1..])
    else Read(r.(record := [], records := r.records + [r.record + [text]]), rest[2..])
  }

  predicate Fresh(r: Reader) { r.mode.FieldStart? && r.field == "" }

  lemma ReadClose(r: Reader, r': Reader, rest: string)
    requires Closes(rest) && !r.mode.Quoted? && Fresh(r')
    requires r'.record == r.record && r'.records == r.records
    ensures Read(r, rest) == Close(r', r.field, rest)
  {
    assert EndField(r) == r'.(record := r'.record + [r.field]);
    assert EndRecord(r) == r'.(record := [], records := r'.records + [r'.record + [r.field]]);
  }

  lemma ReadQuotedCell(r: Reader, s: string, rest: string)
    requires Fresh(r) && Closes(rest)
    ensures Read(r, [QUOTE] + Doubled(s) + [QUOTE] + rest) == Close(r, s, rest)
  {
    var inner := Doubled(s) + [QUOTE] + rest;
    assert [QUOTE] + Doubled(s) + [QUOTE] + rest == [QUOTE] + inner;
    assert ([QUOTE] + inner)[1..] == inner;
    ReadQuoted(r.(mode := Quoted), s, rest);
    var seen := r.(mode := QuoteSeen, field := "" + s);
    assert "" + s == s;
    ReadClose(seen, r, rest);
  }

  lemma ReadPlainCell(r: Reader, s: string, rest: string)
    requires Fresh(r) && Closes(rest) && !NeedsQuotes(s)
    ensures Read(r, s + rest) == Close(r, s, rest)
  {
    ReadPlain(r, s, rest);
    assert "" + s == s;
    ReadClose(if |s| == 0 then r else r.(mode := Plain, field := s), r, rest);
  }

  // A cell, whatever it holds, reads back as its guarded text; what follows it
  // is a comma or the end of the record.
  lemma ReadCell(r: Reader, value: Option<string>, rest: string)
    requires Fresh(r) && Closes(rest)
    ensures Read(r, Cell(value) + rest) == Close(r, Guarded(TextOf(value)), rest)
  {
    var s := Guarded(TextOf(value));
    if NeedsQuotes(s) {
      ReadQuotedCell(r, s, rest);
    } else {
      ReadPlainCell(r, s, rest);
    }
  }

  lemma ReadLastCell(r: Reader, value: Option<string>, rest: string)
    requires Fresh(r)
    ensures Read(r, Cell(value) + [CR, LF] + rest)
         == Read(r.(record := [], records := r.records + [r.record + [Guarded(TextOf(value))]]), rest)
  {
    var tail := [CR, LF] + rest;
    assert Cell(value) + [CR, LF] + rest == Cell(value) + tail;
    assert tail[2..] == rest;
    ReadCell(r, value, tail);
  }

  lemma ReadCellThenMore(r: Reader, value: Option<string>, rest: string)
    requires Fresh(r)
    ensures Read(r, Cell(value) + ([COMMA] + rest)) == Read(r.(record := r.record + [Guarded(TextOf(value))]), rest)
  {
    var tail := [COMMA] + rest;
    assert tail[1..] == rest;
    ReadCell(r, value, tail);
  }

  lemma LineOfMany(row: seq<Option<string>>, rest: string)
    requires |row| > 1
    ensures Line(Cells(row)) + [CR, LF] + rest
         == Cell(row[0]) + ([COMMA] + (Line(Cells(row[1..])) + [CR, LF] + rest))
  {
    assert Cells(row)[1..] == Cells(row[1..]);
    assert Line(Cells(row)) == Cell(row[0]) + [COMMA] + Line(Cells(row[1..]));
    JoinsAssociate(Cell(row[0]), [COMMA], Line(Cells(row[1..])), [CR, LF], rest);
  }

  lemma JoinsAssociate(a: string, b: string, c: string, d: string, e: string)
    ensures a + b + c + d + e == a + (b + (c + d + e))
  {
  }

  lemma TextsOfMany(before: seq<string>, row: seq<Option<string>>)
    requires |row| > 0
    ensures before + [Guarded(TextOf(row[0]))] + Texts(row[1..]) == before + Texts(row)
  {
  }

  lemma {:induction false} ReadRecord(r: Reader, row: seq<Option<string>>, rest: string)
    requires Fresh(r) && |row| > 0
    ensures Read(r, Line(Cells(row)) + [CR, LF] + rest)
         == Read(r.(record := [], records := r.records + [r.record + Texts(row)]), rest)
    decreases |row|
  {
    var text := Guarded(TextOf(row[0]));
    if |row| == 1 {
      ReadLastCell(r, row[0], rest);
      assert Texts(row) == [text];
    } else {
      var r' := r.(record := r.record + [text]);
      LineOfMany(row, rest);
      ReadCellThenMore(r, row[0], Line(Cells(row[1..])) + [CR, LF] + rest);
      ReadRecord(r', row[1..], rest);
      TextsOfMany(r.record, row);
    }
  }

  function AllTexts(rows: seq<seq<Option<string>>>): seq<seq<string>> {
    seq(|rows|, i requires 0 <= i < |rows| => Texts(rows[i]))
  }

  // A record of no columns is written as an empty line, which is one empty
  // field to a reader.
  function ReadBack(row: seq<Option<string>>): seq<string> {
    if |row| == 0 then [""] else Texts(row)
  }

  function AllReadBack(rows: seq<seq<Option<string>>>): seq<seq<string>> {
    seq(|rows|, i requires 0 <= i < |rows| => ReadBack(rows[i]))
  }

  lemma ReadLine(r: Reader, row: seq<Option<string>>, rest: string)
    requires Fresh(r) && r.record == []
    ensures Read(r, Line(Cells(row)) + [CR, LF] + rest) == Read(r.(records := r.records + [ReadBack(row)]), rest)
  {
    if |row| == 0 {
      var all := [CR, LF] + rest;
      assert Line(Cells(row)) + [CR, LF] + rest == all;
      assert all[2..] == rest;
      assert r.record + [r.field] == [""];
    } else {
      ReadRecord(r, row, rest);
      assert r.record + Texts(row) == Texts(row);
    }
  }

  lemma {:induction false} ReadBody(r: Reader, rows: seq<seq<Option<string>>>)
    requires Fresh(r) && r.record == []
    ensures Read(r, Body(rows)) == Some(r.records + AllReadBack(rows))
    decreases |rows|
  {
    if |rows| == 0 {
      assert r.records + AllReadBack(rows) == r.records;
    } else {
      var r' := r.(records := r.records + [ReadBack(rows[0])]);
      ReadLine(r, rows[0], Body(rows[1..]));
      ReadBody(r', rows[1..]);
      assert r'.records + AllReadBack(rows[1..]) == r.records + AllReadBack(rows);
    }
  }

  // Only records of no columns read back as something else.
  lemma ReadBackIsText(rows: seq<seq<Option<string>>>)
    ensures AllReadBack(rows) == AllTexts(rows) <==> forall i | 0 <= i < |rows| :: |rows[i]| > 0
  {
    if AllReadBack(rows) == AllTexts(rows) {
      forall i | 0 <= i < |rows| ensures |rows[i]| > 0 {
        assert AllReadBack(rows)[i] == AllTexts(rows)[i];
      }
    }
  }

  // Anything written with at least one column comes back as its guarded texts,
  // cell by cell and in order; a record of no columns does not.
  lemma RoundTrip(headers: seq<Option<string>>, rows: seq<seq<Option<string>>>)
    ensures Parse(Body([headers] + rows)) == Some(AllTexts([headers] + rows))
            <==> |headers| > 0 && forall i | 0 <= i < |rows| :: |rows[i]| > 0
  {
    var all := [headers] + rows;
    ReadBody(Reader(FieldStart, "", [], []), all);
    assert [] + AllReadBack(all) == AllReadBack(all);
    ReadBackIsText(all);
    assert all[0] == headers && forall i | 0 <= i < |rows| :: all[i + 1] == rows[i];
  }

  // Nothing a spreadsheet would run: each cell read back is a plain negative
  // number or does not start a formula, and loses at most one apostrophe to
  // give the original text.
  lemma CellsAreInert(value: Option<string>)
    ensures var t := Guarded(TextOf(value));
            && (IsPlainNegative(t) || !StartsFormula(t))
            && (t == TextOf(value) || (t[0] == '\'' && t[1..] == TextOf(value) && StartsFormula(TextOf(value))))
  {
  }

  // The guard touches a text exactly when it starts with one of the six
  // characters and is no plain negative number, and then puts one apostrophe in
  // front.
  lemma GuardedExactly(s: string)
    ensures Guarded(s) ==
            if |s| > 0 && s[0] in {'=', '+', '-', '@', '\t', '\r'} && !PlainNegative(s) then ['\''] + s else s
  {
    PlainNegativesAre(s);
  }

  // A minus sign and digits, with a point and more digits or without.
  ghost predicate PlainNegative(s: string) {
    exists whole, fraction :: IsMinus(s, whole, fraction)
  }

  ghost predicate IsMinus(s: string, whole: string, fraction: string) {
    && |whole| > 0 && (forall c | c in whole :: '0' <= c <= '9') && (forall c | c in fraction :: '0' <= c <= '9')
    && s == "-" + whole + (if |fraction| == 0 then "" else "." + fraction)
  }

  lemma PlainNegativesAre(s: string)
    ensures IsPlainNegative(s) <==> PlainNegative(s)
  {
    if IsPlainNegative(s) {
      var k :| 1 <= k <= |s| && IsPlainNegativeAt(s, k);
      var fraction := if k == |s| then "" else s[k + 1..];
      assert s == "-" + s[1..k] + (if |fraction| == 0 then "" else "." + fraction);
      assert IsMinus(s, s[1..k], fraction);
    }
    if PlainNegative(s) {
      var whole, fraction :| IsMinus(s, whole, fraction);
      MinusIsPlain(s, whole, fraction);
    }
  }

  lemma MinusIsPlain(s: string, whole: string, fraction: string)
    requires IsMinus(s, whole, fraction)
    ensures IsPlainNegative(s)
  {
    var k := 1 + |whole|;
    assert s[1..k] == whole;
    assert |fraction| > 0 ==> s[k + 1..] == fraction;
    assert forall i | 0 <= i < |whole| :: whole[i] in whole;
    assert forall i | 0 <= i < |fraction| :: fraction[i] in fraction;
    assert AllDigits(whole) && AllDigits(fraction);
    assert IsPlainNegativeAt(s, k);
  }
}
