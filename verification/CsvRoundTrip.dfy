/** The CSV reader inverts the printer of section 2 of RFC 4180 on exactly the cells it
    supports, and does not care which line ending a file uses. */
module CsvRoundTrip {
  import opened Csv

  // --------------------------------------------------------------------- printing

  /** A quote inside a field is doubled. */
  function Doubled(cell: string): string {
    if cell == "" then ""
    else (if cell[0] == '"' then "\"\"" else [cell[0]]) + Doubled(cell[1..])
  }

  function Quoted(cell: string): string {
    "\"" + Doubled(cell) + "\""
  }

  function PrintRow(cells: seq<string>): string {
    if cells == [] then ""
    else if |cells| == 1 then Quoted(cells[0])
    else Quoted(cells[0]) + "," + PrintRow(cells[1..])
  }

  function PrintRows(rows: seq<seq<string>>, eol: string): string {
    if rows == [] then "" else PrintRow(rows[0]) + eol + PrintRows(rows[1..], eol)
  }

  function Print(headers: seq<string>, rows: seq<seq<string>>, eol: string): string {
    PrintRows([headers] + rows, eol)
  }

  predicate IsEol(eol: string) {
    eol in {"\n", "\r\n", "\r"}
  }

  // --------------------------------------------------------------- one row, any cells

  /** Reading a quoted field up to its closing quote. */
  lemma {:induction false} ReadsQuoted(cell: string, rest: string, current: string)
    requires rest == "" || rest[0] == ','
    ensures Cells(Doubled(cell) + "\"" + rest, current, true) == Cells(rest, current + cell, false)
    decreases |cell|
  {
    var line := Doubled(cell) + "\"" + rest;
    if cell == "" {
      assert line == "\"" + rest;
      assert line[1..] == rest;
      assert current + cell == current;
    } else if cell[0] == '"' {
      assert line == "\"\"" + (Doubled(cell[1..]) + "\"" + rest);
      assert line[2..] == Doubled(cell[1..]) + "\"" + rest;
      ReadsQuoted(cell[1..], rest, current + "\"");
      assert current + "\"" + cell[1..] == current + cell;
    } else {
      assert line == [cell[0]] + (Doubled(cell[1..]) + "\"" + rest);
      assert line[1..] == Doubled(cell[1..]) + "\"" + rest;
      ReadsQuoted(cell[1..], rest, current + [cell[0]]);
      assert current + [cell[0]] + cell[1..] == current + cell;
    }
  }

  /** Every row of at least one cell is read back as it was, whatever the cells hold. */
  lemma {:induction false} ReadsRow(cells: seq<string>)
    requires cells != []
    ensures Cells(PrintRow(cells), "", false) == cells
  {
    var line := PrintRow(cells);
    var rest := if |cells| == 1 then "" else "," + PrintRow(cells[1..]);
    assert line == "\"" + (Doubled(cells[0]) + "\"" + rest);
    assert line[1..] == Doubled(cells[0]) + "\"" + rest;
    ReadsQuoted(cells[0], rest, "");
    assert "" + cells[0] == cells[0];
    assert Cells(line, "", false) == Cells(rest, cells[0], false);
    if |cells| > 1 {
      assert rest[1..] == PrintRow(cells[1..]);
      ReadsRow(cells[1..]);
      assert cells == [cells[0]] + cells[1..];
    }
  }

  // --------------------------------------------------------------------- line breaks

  predicate HasBreak(s: string) {
    '\n' in s || '\r' in s
  }

  predicate Unbroken(cells: seq<string>) {
    forall k :: 0 <= k < |cells| ==> !HasBreak(cells[k])
  }

  lemma {:induction false} ReplaceCrLfOfConcat(a: string, b: string)
    requires a != "" && a[|a| - 1] != '\r'
    ensures ReplaceCrLf(a + b) == ReplaceCrLf(a) + ReplaceCrLf(b)
    decreases |a|
  {
    var s := a + b;
    if |a| > 1 && a[0] == '\r' && a[1] == '\n' {
      assert s[2..] == a[2..] + b;
      if |a| > 2 {
        ReplaceCrLfOfConcat(a[2..], b);
      } else {
        assert a[2..] == "" && s[2..] == b;
      }
    } else {
      assert s[1..] == a[1..] + b;
      if |a| > 1 {
        ReplaceCrLfOfConcat(a[1..], b);
      } else {
        assert a[1..] == "" && s[1..] == b;
      }
    }
  }

  lemma {:induction false} ReplaceCrOfConcat(a: string, b: string)
    ensures ReplaceCr(a + b) == ReplaceCr(a) + ReplaceCr(b)
  {
    if a == "" {
      assert a + b == b;
    } else {
      assert (a + b)[1..] == a[1..] + b;
      ReplaceCrOfConcat(a[1..], b);
    }
  }

  lemma NormalizedConcat(a: string, b: string)
    requires a != "" && a[|a| - 1] != '\r'
    ensures Normalized(a + b) == Normalized(a) + Normalized(b)
  {
    ReplaceCrLfOfConcat(a, b);
    ReplaceCrOfConcat(ReplaceCrLf(a), ReplaceCrLf(b));
  }

  lemma NormalizedEol(eol: string, rest: string)
    requires IsEol(eol) && (eol == "\r" && rest != "" ==> rest[0] != '\n')
    ensures Normalized(eol + rest) == "\n" + Normalized(rest)
  {
    var s := eol + rest;
    if eol == "\r\n" {
      assert s[2..] == rest;
    } else {
      assert s[1..] == rest;
    }
  }

  lemma {:induction false} SplitOfConcat(a: string, b: string)
    ensures Split(a + "\n" + b) == Split(a) + Split(b)
  {
    if a == "" {
      assert (a + "\n" + b)[1..] == b;
    } else {
      assert (a + "\n" + b)[1..] == a[1..] + "\n" + b;
      SplitOfConcat(a[1..], b);
    }
  }

  lemma {:induction false} KeptOfConcat(a: seq<string>, b: seq<string>)
    ensures Kept(a + b) == Kept(a) + Kept(b)
  {
    if a == [] {
      assert a + b == b;
    } else {
      assert (a + b)[1..] == a[1..] + b;
      KeptOfConcat(a[1..], b);
    }
  }

  lemma LinesOfConcat(a: string, b: string)
    ensures Lines(a + "\n" + b) == Lines(a) + Lines(b)
  {
    SplitOfConcat(a, b);
    KeptOfConcat(Split(a), Split(b));
  }

  lemma {:induction false} NoBreakIsNormal(s: string)
    requires !HasBreak(s)
    ensures Normalized(s) == s
    ensures Split(s) == [s]
  {
    if s != "" {
      assert s[0] in s;
      assert s == [s[0]] + s[1..];
      assert forall c :: c in s[1..] ==> c in s;
      NoBreakIsNormal(s[1..]);
      assert ReplaceCrLf(s) == [s[0]] + ReplaceCrLf(s[1..]);
      assert ([s[0]] + ReplaceCrLf(s[1..]))[1..] == ReplaceCrLf(s[1..]);
    }
  }

  // ------------------------------------------------------------------- printed text

  lemma {:induction false} RowIsQuoted(cells: seq<string>)
    requires cells != []
    ensures var line := PrintRow(cells); |line| > 1 && line[0] == '"' && line[|line| - 1] == '"'
  {
    if |cells| > 1 {
      RowIsQuoted(cells[1..]);
    }
  }

  lemma {:induction false} DoubledBreaks(cell: string)
    ensures HasBreak(Doubled(cell)) <==> HasBreak(cell)
  {
    if cell != "" {
      DoubledBreaks(cell[1..]);
      assert cell == [cell[0]] + cell[1..];
    }
  }

  lemma {:induction false} RowBreaks(cells: seq<string>)
    ensures HasBreak(PrintRow(cells)) <==> !Unbroken(cells)
  {
    if cells != [] {
      DoubledBreaks(cells[0]);
      RowBreaks(cells[1..]);
      assert Unbroken(cells) <==> !HasBreak(cells[0]) && Unbroken(cells[1..]) by {
        assert cells == [cells[0]] + cells[1..];
      }
      assert PrintRow(cells) == if |cells| == 1 then Quoted(cells[0]) else Quoted(cells[0]) + "," + PrintRow(cells[1..]);
    }
  }

  /** A line without a carriage return at its end, a line ending, and the rest. */
  lemma LinesOfOneMore(line: string, eol: string, rest: string)
    requires line != "" && line[|line| - 1] != '\r'
    requires IsEol(eol) && (eol == "\r" && rest != "" ==> rest[0] != '\n')
    ensures Lines(Normalized(line + (eol + rest))) == Lines(Normalized(line)) + Lines(Normalized(rest))
  {
    NormalizedConcat(line, eol + rest);
    NormalizedEol(eol, rest);
    assert Normalized(line) + ("\n" + Normalized(rest)) == Normalized(line) + "\n" + Normalized(rest);
    LinesOfConcat(Normalized(line), Normalized(rest));
  }

  function LinesOfRows(rows: seq<seq<string>>): seq<string> {
    if rows == [] then [] else Lines(Normalized(PrintRow(rows[0]))) + LinesOfRows(rows[1..])
  }

  /** The lines of a printed file are the lines of its rows, for every line ending. */
  lemma {:induction false} LinesOfPrinted(rows: seq<seq<string>>, eol: string)
    requires IsEol(eol) && forall k :: 0 <= k < |rows| ==> rows[k] != []
    ensures Lines(Normalized(PrintRows(rows, eol))) == LinesOfRows(rows)
  {
    if rows != [] {
      var line, rest := PrintRow(rows[0]), PrintRows(rows[1..], eol);
      RowIsQuoted(rows[0]);
      if rows[1..] != [] {
        RowIsQuoted(rows[1]);
        assert rest[0] == PrintRow(rows[1])[0];
      }
      LinesOfPrinted(rows[1..], eol);
      assert PrintRows(rows, eol) == line + (eol + rest);
      LinesOfOneMore(line, eol, rest);
    }
  }

  // ---------------------------------------------------------------------- round trip

  predicate Trimmed(cell: string) {
    Trim(cell) == cell
  }

  /** The subset of cells the reader supports. */
  ghost predicate Supported(cells: seq<string>) {
    Unbroken(cells) && AllTrimmed(cells)
  }

  ghost predicate DistinctHeaders(headers: seq<string>) {
    forall i, j :: 0 <= i < j < |headers| ==> headers[i] != headers[j]
  }

  /** The record holds the row's cells under their headers, and nothing else. */
  ghost predicate SaysRow(record: map<string, string>, headers: seq<string>, row: seq<string>)
    requires |row| == |headers|
  {
    && record.Keys == (set k | 0 <= k < |headers| :: headers[k])
    && forall j :: 0 <= j < |headers| ==> record[headers[j]] == row[j]
  }

  /** The parsed file says what was printed. */
  ghost predicate Says(p: Parsed, headers: seq<string>, rows: seq<seq<string>>)
    requires forall i :: 0 <= i < |rows| ==> |rows[i]| == |headers|
  {
    && p.headers == headers
    && |p.rows| == |rows|
    && forall i :: 0 <= i < |rows| ==> SaysRow(p.rows[i], headers, rows[i])
  }

  lemma {:induction false} RecordHolds(headers: seq<string>, values: seq<string>)
    requires DistinctHeaders(headers) && |values| == |headers|
    ensures RecordOf(headers, values).Keys == set k | 0 <= k < |headers| :: headers[k]
    ensures forall j :: 0 <= j < |headers| ==> headers[j] in RecordOf(headers, values) && RecordOf(headers, values)[headers[j]] == values[j]
  {
    if headers != [] {
      var n := |headers| - 1;
      var init := headers[..n];
      RecordPrefix(init, values, values[..n]);
      RecordHolds(init, values[..n]);
      assert (set k | 0 <= k < |headers| :: headers[k]) == (set k | 0 <= k < n :: init[k]) + {headers[n]};
    }
  }

  lemma {:induction false} RecordPrefix(headers: seq<string>, a: seq<string>, b: seq<string>)
    requires |headers| <= |a| && |headers| <= |b| && a[..|headers|] == b[..|headers|]
    ensures RecordOf(headers, a) == RecordOf(headers, b)
  {
    if headers != [] {
      var n := |headers| - 1;
      assert a[n] == a[..|headers|][n] && b[n] == b[..|headers|][n];
      assert a[..n] == a[..|headers|][..n] && b[..n] == b[..|headers|][..n];
      RecordPrefix(headers[..n], a, b);
    }
  }

  lemma UnbrokenRowIsOneLine(cells: seq<string>)
    requires cells != [] && Unbroken(cells)
    ensures Lines(Normalized(PrintRow(cells))) == [PrintRow(cells)]
  {
    var line := PrintRow(cells);
    RowBreaks(cells);
    RowIsQuoted(cells);
    NoBreakIsNormal(line);
    assert TrimEnd(line) == line;
    KeptOne(line);
  }

  lemma KeptOne(line: string)
    ensures Kept([line]) == if TrimEnd(line) == "" then [] else [TrimEnd(line)]
  {
    assert [line][1..] == [];
  }

  lemma {:induction false} UnbrokenRows(rows: seq<seq<string>>)
    requires forall i :: 0 <= i < |rows| ==> rows[i] != [] && Unbroken(rows[i])
    ensures |LinesOfRows(rows)| == |rows|
    ensures forall i :: 0 <= i < |rows| ==> LinesOfRows(rows)[i] == PrintRow(rows[i])
  {
    if rows != [] {
      UnbrokenRowIsOneLine(rows[0]);
      UnbrokenRows(rows[1..]);
    }
  }

  // ------------------------------------------------------- cells that are not supported

  lemma {:induction false} InkIsNotTrimmed(line: string)
    requires '"' in line
    ensures TrimEnd(line) != ""
  {
    if IsSpace(line[|line| - 1]) {
      assert line == line[..|line| - 1] + [line[|line| - 1]];
      InkIsNotTrimmed(line[..|line| - 1]);
    }
  }

  lemma {:induction false} QuoteSurvives(s: string)
    requires '"' in s
    ensures '"' in ReplaceCrLf(s) && '"' in ReplaceCr(s)
  {
    assert s == [s[0]] + s[1..];
    if s[0] != '"' {
      QuoteSurvives(s[1..]);
      if |s| > 1 && s[0] == '\r' && s[1] == '\n' {
        assert s[1..] == [s[1]] + s[2..];
        QuoteSurvives(s[2..]);
      }
    }
  }

  lemma {:induction false} QuoteIsInALine(s: string) returns (k: nat)
    requires '"' in s
    ensures k < |Split(s)| && '"' in Split(s)[k]
  {
    assert s == [s[0]] + s[1..];
    if s[0] == '"' {
      k := 0;
    } else {
      var j := QuoteIsInALine(s[1..]);
      k := if s[0] == '\n' then j + 1 else j;
    }
  }

  lemma {:induction false} InkIsKept(lines: seq<string>, k: nat)
    requires k < |lines| && '"' in lines[k]
    ensures |Kept(lines)| >= 1
  {
    if k == 0 {
      InkIsNotTrimmed(lines[0]);
    } else {
      InkIsKept(lines[1..], k - 1);
    }
  }

  lemma QuoteMakesALine(s: string)
    requires '"' in s
    ensures |Lines(Normalized(s))| >= 1
  {
    QuoteSurvives(s);
    QuoteSurvives(ReplaceCrLf(s));
    var k := QuoteIsInALine(Normalized(s));
    InkIsKept(Split(Normalized(s)), k);
  }

  lemma {:induction false} FirstBreak(s: string) returns (k: nat)
    requires HasBreak(s)
    ensures k < |s| && s[k] in {'\n', '\r'} && !HasBreak(s[..k])
  {
    assert s == [s[0]] + s[1..];
    if s[0] in {'\n', '\r'} {
      k := 0;
    } else {
      var j := FirstBreak(s[1..]);
      k := j + 1;
      assert s[..k] == [s[0]] + s[1..][..j];
    }
  }

  /** A text cut at a line break, each side holding a quote, makes two lines. */
  lemma CutMakesTwoLines(head: string, eol: string, rest: string)
    requires IsEol(eol) && (eol == "\r" && rest != "" ==> rest[0] != '\n')
    requires '"' in head && !HasBreak(head) && '"' in rest
    ensures |Lines(Normalized(head + (eol + rest)))| >= 2
  {
    assert head[|head| - 1] in head;
    NormalizedConcat(head, eol + rest);
    NormalizedEol(eol, rest);
    NoBreakIsNormal(head);
    assert head + ("\n" + Normalized(rest)) == head + "\n" + Normalized(rest);
    LinesOfConcat(head, Normalized(rest));
    InkIsNotTrimmed(head);
    KeptOne(head);
    QuoteMakesALine(rest);
  }

  /** A field with a line break inside tears its row apart. */
  lemma BreakTearsTheRow(s: string)
    requires |s| > 1 && s[0] == '"' && s[|s| - 1] == '"' && HasBreak(s)
    ensures |Lines(Normalized(s))| >= 2
  {
    var k := FirstBreak(s);
    var eol := if s[k] == '\r' && s[k + 1] == '\n' then "\r\n" else [s[k]];
    var head, rest := s[..k], s[k + |eol|..];
    assert s == head + (eol + rest);
    assert '"' in head by {
      assert head[0] == '"';
    }
    assert '"' in rest by {
      assert rest[|rest| - 1] == '"';
    }
    CutMakesTwoLines(head, eol, rest);
  }

  /** Printed rows never lose lines, and gain some when a cell has a line break. */
  lemma {:induction false} BrokenRows(rows: seq<seq<string>>)
    requires forall i :: 0 <= i < |rows| ==> rows[i] != []
    ensures |LinesOfRows(rows)| >= |rows|
    ensures (exists i :: 0 <= i < |rows| && !Unbroken(rows[i])) ==> |LinesOfRows(rows)| > |rows|
  {
    if rows != [] {
      var line := PrintRow(rows[0]);
      RowIsQuoted(rows[0]);
      QuoteMakesALine(line);
      RowBreaks(rows[0]);
      if HasBreak(line) {
        BreakTearsTheRow(line);
      }
      BrokenRows(rows[1..]);
      assert forall i :: 0 < i < |rows| ==> rows[i] == rows[1..][i - 1];
    }
  }

  lemma {:induction false} TrimEndIdempotent(s: string)
    ensures TrimEnd(TrimEnd(s)) == TrimEnd(s)
    ensures TrimEnd(s) != "" && s != "" && !IsSpace(s[0]) ==> !IsSpace(TrimEnd(s)[0])
  {
    if s != "" && IsSpace(s[|s| - 1]) {
      TrimEndIdempotent(s[..|s| - 1]);
    }
  }

  lemma {:induction false} TrimStartDone(s: string)
    ensures TrimStart(s) == "" || !IsSpace(TrimStart(s)[0])
  {
    if s != "" && IsSpace(s[0]) {
      TrimStartDone(s[1..]);
    }
  }

  lemma TrimIdempotent(s: string)
    ensures Trim(Trim(s)) == Trim(s)
  {
    TrimStartDone(s);
    TrimEndIdempotent(TrimStart(s));
    assert TrimStart(Trim(s)) == Trim(s);
  }

  /** A line break in any cell yields more records than rows. */
  lemma BrokenFile(headers: seq<string>, rows: seq<seq<string>>, eol: string)
    requires IsEol(eol) && headers != [] && forall i :: 0 <= i < |rows| ==> rows[i] != []
    requires !Unbroken(headers) || exists i :: 0 <= i < |rows| && !Unbroken(rows[i])
    ensures |Parse(Print(headers, rows, eol)).rows| > |rows|
  {
    var all := [headers] + rows;
    assert all[0] == headers && forall i :: 0 <= i < |rows| ==> all[i + 1] == rows[i];
    assert exists i :: 0 <= i < |all| && !Unbroken(all[i]);
    BrokenRows(all);
    LinesOfPrinted(all, eol);
  }

  /** What an unbroken file is parsed to: everything trimmed. */
  lemma UnbrokenFile(headers: seq<string>, rows: seq<seq<string>>, eol: string)
    requires IsEol(eol) && headers != [] && Unbroken(headers)
    requires forall i :: 0 <= i < |rows| ==> rows[i] != [] && Unbroken(rows[i])
    ensures var p := Parse(Print(headers, rows, eol));
            && p.headers == TrimAll(headers)
            && |p.rows| == |rows|
            && forall i :: 0 <= i < |rows| ==> p.rows[i] == RecordOf(TrimAll(headers), TrimAll(rows[i]))
  {
    var all := [headers] + rows;
    LinesOfPrinted(all, eol);
    UnbrokenRows(all);
    var lines := LinesOfRows(all);
    assert all[0] == headers && lines[0] == PrintRow(headers);
    ReadsRow(headers);
    forall k | 0 <= k < |headers|
      ensures Trim(Trim(headers[k])) == Trim(headers[k])
    {
      TrimIdempotent(headers[k]);
    }
    assert TrimAll(TrimAll(headers)) == TrimAll(headers);
    forall i | 0 <= i < |rows|
      ensures RecordsOf(TrimAll(headers), lines[1..])[i] == RecordOf(TrimAll(headers), TrimAll(rows[i]))
    {
      assert lines[1..][i] == lines[i + 1] == PrintRow(rows[i]) by {
        assert all[i + 1] == rows[i];
      }
      ReadsRow(rows[i]);
    }
  }

  ghost predicate AllTrimmed(cells: seq<string>) {
    forall k :: 0 <= k < |cells| ==> Trimmed(cells[k])
  }

  lemma TrimmedAll(cells: seq<string>)
    ensures TrimAll(cells) == cells <==> AllTrimmed(cells)
  {
    if AllTrimmed(cells) {
      assert TrimAll(cells) == cells;
    }
  }

  /** The record read from a row says the row exactly when its cells are trimmed. */
  lemma RecordSaysRow(headers: seq<string>, row: seq<string>)
    requires DistinctHeaders(headers) && |row| == |headers|
    ensures SaysRow(RecordOf(headers, TrimAll(row)), headers, row) <==> AllTrimmed(row)
  {
    RecordHolds(headers, TrimAll(row));
  }

  /** A printed table is read back as it was exactly when every cell is free of line
      breaks and of surrounding space, for each of the three line endings. */
  lemma RoundTripExactly(headers: seq<string>, rows: seq<seq<string>>, eol: string)
    requires IsEol(eol) && headers != [] && DistinctHeaders(headers)
    requires forall i :: 0 <= i < |rows| ==> |rows[i]| == |headers|
    ensures Says(Parse(Print(headers, rows, eol)), headers, rows)
       <==> (Supported(headers) && forall i :: 0 <= i < |rows| ==> Supported(rows[i]))
  {
    var p := Parse(Print(headers, rows, eol));
    if !Unbroken(headers) || exists i :: 0 <= i < |rows| && !Unbroken(rows[i]) {
      BrokenFile(headers, rows, eol);
    } else {
      UnbrokenFile(headers, rows, eol);
      TrimmedAll(headers);
      if AllTrimmed(headers) {
        forall i | 0 <= i < |rows|
          ensures SaysRow(p.rows[i], headers, rows[i]) <==> Supported(rows[i])
        {
          RecordSaysRow(headers, rows[i]);
        }
      }
    }
  }

  // ----------------------------------------------------------------- line endings

  /** The text with each line feed written as the given line ending. */
  function WithEol(s: string, eol: string): string {
    if s == "" then "" else (if s[0] == '\n' then eol else [s[0]]) + WithEol(s[1..], eol)
  }

  lemma {:induction false} WithEolNormalizes(s: string, eol: string)
    requires IsEol(eol) && '\r' !in s
    ensures Normalized(WithEol(s, eol)) == s
    ensures eol == "\r" && s != "" ==> WithEol(s, eol) != "" && WithEol(s, eol)[0] != '\n'
    ensures WithEol(s, eol) != "" ==> s != "" && (WithEol(s, eol)[0] == s[0] || s[0] == '\n')
  {
    if s != "" {
      assert s == [s[0]] + s[1..];
      WithEolNormalizes(s[1..], eol);
      var rest := WithEol(s[1..], eol);
      if s[0] == '\n' {
        NormalizedEol(eol, rest);
      } else {
        NormalizedConcat([s[0]], rest);
        NoBreakIsNormal([s[0]]);
      }
    }
  }

  /** A file is parsed the same whether its lines end in LF, CRLF or CR. */
  lemma LineEndingDoesNotMatter(s: string, eol: string)
    requires IsEol(eol) && '\r' !in s
    ensures Parse(WithEol(s, eol)) == Parse(s)
  {
    var body := StripBom(s);
    assert s != "" ==> s == [s[0]] + s[1..];
    WithEolNormalizes(s, eol);
    WithEolNormalizes(body, eol);
    WithEolNormalizes(body, "\n");
    SameWithLineFeeds(body);
    assert StripBom(WithEol(s, eol)) == WithEol(body, eol);
  }

  lemma {:induction false} SameWithLineFeeds(s: string)
    ensures WithEol(s, "\n") == s
  {
    if s != "" {
      SameWithLineFeeds(s[1..]);
      assert s == [s[0]] + s[1..];
    }
  }
}
