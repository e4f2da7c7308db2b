/** The CSV reader (csv.ts): a character-level state machine with one character of
    look-ahead, and the function it computes. */
module Csv {

  /** A parsed file: the headers, and one record per further line. */
  datatype Parsed = Parsed(headers: seq<string>, rows: seq<map<string, string>>)

  const BOM: char := '\U{FEFF}'

  /** What String.prototype.trim removes. */
  predicate IsSpace(c: char) {
    || c in {' ', '\t', '\n', '\r', '\U{B}', '\U{C}', '\U{A0}', '\U{1680}', '\U{2028}', '\U{2029}', '\U{202F}', '\U{205F}', '\U{3000}', '\U{FEFF}'}
    || '\U{2000}' <= c <= '\U{200A}'
  }

  function TrimStart(s: string): string {
    if s == "" || !IsSpace(s[0]) then s else TrimStart(s[1..])
  }

  function TrimEnd(s: string): string {
    if s == "" || !IsSpace(s[|s| - 1]) then s else TrimEnd(s[..|s| - 1])
  }

  function Trim(s: string): string {
    TrimEnd(TrimStart(s))
  }

  function TrimAll(cells: seq<string>): (r: seq<string>)
    ensures |r| == |cells| && forall k :: 0 <= k < |cells| ==> r[k] == Trim(cells[k])
  {
    seq(|cells|, k requires 0 <= k < |cells| => Trim(cells[k]))
  }

  // ------------------------------------------------------------------- one row

  /** The cells still to come, given the cell begun and whether a quote is open. */
  function Cells(line: string, current: string, inQuotes: bool): seq<string>
    decreases |line|
  {
    if line == "" then [current]
    else if inQuotes then
      if line[0] == '"' then
        if |line| > 1 && line[1] == '"' then Cells(line[2..], current + "\"", true)
        else Cells(line[1..], current, false)
      else Cells(line[1..], current + [line[0]], true)
    else if line[0] == ',' then [current] + Cells(line[1..], "", false)
    else if line[0] == '"' then Cells(line[1..], current, true)
    else Cells(line[1..], current + [line[0]], false)
  }

  function SplitRow(line: string): seq<string> {
    TrimAll(Cells(line, "", false))
  }

  method SplitCsvRow(line: string) returns (r: seq<string>)
    ensures r == SplitRow(line)
  {
    var cells: seq<string> := [];
    var current := "";
    var inQuotes := false;
    var i := 0;
    while i < |line|
      invariant 0 <= i <= |line|
      invariant cells + Cells(line[i..], current, inQuotes) == Cells(line, "", false)
    {
      var c := line[i];
      assert line[i..][0] == c && line[i..][1..] == line[i + 1..];
      if inQuotes {
        if c == '"' {
          if i + 1 < |line| && line[i + 1] == '"' {
            assert line[i..][2..] == line[i + 2..];
            current := current + "\"";
            i := i + 1;
          } else {
            inQuotes := false;
          }
        } else {
          current := current + [c];
        }
      } else if c == ',' {
        assert cells + ([current] + Cells(line[i + 1..], "", false)) == cells + [current] + Cells(line[i + 1..], "", false);
        cells := cells + [current];
        current := "";
      } else if c == '"' {
        inQuotes := true;
      } else {
        current := current + [c];
      }
      i := i + 1;
    }
    cells := cells + [current];
    r := TrimAll(cells);
  }

  // ------------------------------------------------------------------ the lines

  function StripBom(s: string): string {
    if s != "" && s[0] == BOM then s[1..] else s
  }

  /** replace(/\r\n/g, '\n') */
  function ReplaceCrLf(s: string): string {
    if s == "" then ""
    else if |s| > 1 && s[0] == '\r' && s[1] == '\n' then "\n" + ReplaceCrLf(s[2..])
    else [s[0]] + ReplaceCrLf(s[1..])
  }

  /** replace(/\r/g, '\n') */
  function ReplaceCr(s: string): string {
    if s == "" then "" else (if s[0] == '\r' then "\n" else [s[0]]) + ReplaceCr(s[1..])
  }

  function Normalized(s: string): string {
    ReplaceCr(ReplaceCrLf(s))
  }

  /** split('\n') */
  function Split(s: string): (r: seq<string>)
    ensures r != []
  {
    if s == "" then [""]
    else
      var rest := Split(s[1..]);
      if s[0] == '\n' then [""] + rest else [[s[0]] + rest[0]] + rest[1..]
  }

  /** Lines without trailing space, blank ones dropped. */
  function Kept(lines: seq<string>): seq<string> {
    if lines == [] then []
    else (if TrimEnd(lines[0]) == "" then [] else [TrimEnd(lines[0])]) + Kept(lines[1..])
  }

  function Lines(s: string): seq<string> {
    Kept(Split(s))
  }

  // -------------------------------------------------------------------- the file

  /** The value of each header; missing cells are empty, the last of equal headers wins. */
  function RecordOf(headers: seq<string>, values: seq<string>): map<string, string> {
    if headers == [] then map[]
    else
      var j := |headers| - 1;
      RecordOf(headers[..j], values)[headers[j] := if j < |values| then values[j] else ""]
  }

  function RecordsOf(headers: seq<string>, lines: seq<string>): (r: seq<map<string, string>>)
    ensures |r| == |lines| && forall k :: 0 <= k < |lines| ==> r[k] == RecordOf(headers, SplitRow(lines[k]))
  {
    seq(|lines|, k requires 0 <= k < |lines| => RecordOf(headers, SplitRow(lines[k])))
  }

  function ParseLines(lines: seq<string>): Parsed {
    if lines == [] then Parsed([], [])
    else
      var headers := TrimAll(SplitRow(lines[0]));
      Parsed(headers, RecordsOf(headers, lines[1..]))
  }

  function Parse(input: string): Parsed {
    ParseLines(Lines(Normalized(StripBom(input))))
  }

  method ParseCsv(input: string) returns (r: Parsed)
    ensures r == Parse(input)
  {
    var normalized := Normalized(StripBom(input));
    var lines := Kept(Split(normalized));
    if |lines| == 0 {
      return Parsed([], []);
    }
    var first := SplitCsvRow(lines[0]);
    var headers := TrimAll(first);
    var rows: seq<map<string, string>> := [];
    for i := 1 to |lines|
      invariant |rows| == i - 1
      invariant forall k :: 0 <= k < i - 1 ==> rows[k] == RecordOf(headers, SplitRow(lines[k + 1]))
    {
      var values := SplitCsvRow(lines[i]);
      var rec := ReadRecord(headers, values);
      rows := rows + [rec];
    }
    assert rows == RecordsOf(headers, lines[1..]);
    r := Parsed(headers, rows);
  }

  method ReadRecord(headers: seq<string>, values: seq<string>) returns (rec: map<string, string>)
    ensures rec == RecordOf(headers, values)
  {
    rec := map[];
    for j := 0 to |headers|
      invariant rec == RecordOf(headers[..j], values)
    {
      assert headers[..j + 1][..j] == headers[..j];
      rec := rec[headers[j] := if j < |values| then values[j] else ""];
    }
    assert headers[..|headers|] == headers;
  }
}
