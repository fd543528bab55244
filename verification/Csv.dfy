/** The CSV reader of the imports and the CSV printer of the report pack. */
module Csv {
  import opened Wrappers
  import opened Text
  import opened Sequences

  const MAX_CSV_BYTES := 1_000_000
  const MAX_ROWS := 5_000
  const MAX_COLUMNS := 50

  const BOM: char := '\U{FEFF}'

  function Utf8Length(s: string): nat {
    if s == [] then 0
    else
      var c := s[|s| - 1];
      Utf8Length(s[..|s| - 1])
      + if c < '\U{80}' then 1 else if c < '\U{800}' then 2 else if c < '\U{10000}' then 3 else 4
  }

  type CsvRow = seq<string>

  predicate BlankRow(row: CsvRow) { forall cell <- row :: IsBlank(cell) }

  /** Drops one carriage return at the end. */
  function StripReturn(value: string): string {
    if value != [] && value[|value| - 1] == '\r' then value[..|value| - 1] else value
  }

  function StripBom(text: string): string { if text != [] && text[0] == BOM then text[1..] else text }

  // ----- Reading -----

  datatype State = State(rows: seq<CsvRow>, row: CsvRow, value: string, quoted: bool)

  const START := State([], [], "", false)

  function EndRow(st: State): State {
    var row := st.row + [StripReturn(st.value)];
    State(if BlankRow(row) then st.rows else st.rows + [row], [], "", st.quoted)
  }

  /** Reads the characters left, one or, for a doubled quote, two at a time. */
  function Scan(rest: string, st: State): Result<State> {
    if rest == [] then Ok(st)
    else if st.quoted then
      if rest[0] == '\"' && |rest| > 1 && rest[1] == '\"' then Scan(rest[2..], st.(value := st.value + ['\"']))
      else if rest[0] == '\"' then Scan(rest[1..], st.(quoted := false))
      else Scan(rest[1..], st.(value := st.value + [rest[0]]))
    else if rest[0] == '\"' then
      if st.value != [] then Err(BadRequest) else Scan(rest[1..], st.(quoted := true))
    else if rest[0] == ',' then Scan(rest[1..], st.(row := st.row + [st.value], value := ""))
    else if rest[0] == '\n' then Scan(rest[1..], EndRow(st))
    else Scan(rest[1..], st.(value := st.value + [rest[0]]))
  }

  predicate WithinLimits(rows: seq<CsvRow>) {
    2 <= |rows| && |rows| - 1 <= MAX_ROWS && forall row <- rows :: |row| <= MAX_COLUMNS
  }

  function Parse(text: string): Result<seq<CsvRow>> {
    var _ :- Require(Utf8Length(text) <= MAX_CSV_BYTES, BadRequest);
    var st :- Scan(text, START);
    var _ :- Require(!st.quoted, BadRequest);
    var rows := EndRow(st).rows;
    var _ :- Require(WithinLimits(rows), BadRequest);
    Ok(rows)
  }

  method ParseCsv(text: string) returns (r: Result<seq<CsvRow>>)
    ensures r == Parse(text)
    ensures r.Ok? ==> WithinLimits(r.value) && forall row <- r.value :: !BlankRow(row)
  {
    if Utf8Length(text) > MAX_CSV_BYTES { return Err(BadRequest); }
    var rows: seq<CsvRow>, row: CsvRow, value: string, quoted := [], [], "", false;
    var index := 0;
    assert text[0..] == text;
    while index < |text|
      invariant index <= |text|
      invariant Scan(text, START) == Scan(text[index..], State(rows, row, value, quoted))
      invariant forall x <- rows :: !BlankRow(x)
    {
      var next := text[index];
      assert text[index..][1..] == text[index + 1..];
      if quoted {
        if next == '\"' && index + 1 < |text| && text[index + 1] == '\"' {
          assert text[index..][2..] == text[index + 2..];
          value := value + ['\"'];
          index := index + 1;
        } else if next == '\"' {
          quoted := false;
        } else {
          value := value + [next];
        }
        index := index + 1;
        continue;
      }
      if next == '\"' {
        if |value| > 0 { return Err(BadRequest); }
        quoted := true;
      } else if next == ',' {
        row := row + [value];
        value := "";
      } else if next == '\n' {
        row := row + [StripReturn(value)];
        if !BlankRow(row) { rows := rows + [row]; }
        row, value := [], "";
      } else {
        value := value + [next];
      }
      index := index + 1;
    }
    assert text[index..] == [];
    if quoted { return Err(BadRequest); }
    row := row + [StripReturn(value)];
    if !BlankRow(row) { rows := rows + [row]; }
    if |rows| < 2 { return Err(BadRequest); }
    if |rows| - 1 > MAX_ROWS { return Err(BadRequest); }
    if exists entry <- rows :: |entry| > MAX_COLUMNS { return Err(BadRequest); }
    return Ok(rows);
  }

  // ----- Printing -----

  function TrimStart(s: string): string {
    if s != [] && IsSpace(s[0]) then TrimStart(s[1..]) else s
  }

  predicate Digits(s: string) { s != [] && forall c <- s :: '0' <= c <= '9' }

  /** A minus sign, digits, and optionally a point and digits. */
  predicate PlainNegative(s: string) {
    && s != [] && s[0] == '-'
    && (Digits(s[1..]) || exists k :: 1 < k < |s| && s[k] == '.' && Digits(s[1..k]) && Digits(s[k + 1..]))
  }

  predicate UnsafeFormula(value: string) {
    var trimmed := TrimStart(value);
    trimmed != [] && (trimmed[0] in "=+@" || (trimmed[0] == '-' && !PlainNegative(trimmed)))
  }

  function Protect(value: string): string { if UnsafeFormula(value) then ['\''] + value else value }

  function Escape(value: string): string {
    if value == [] then [] else (if value[0] == '\"' then ['\"', '\"'] else [value[0]]) + Escape(value[1..])
  }

  function SafeCell(value: string): string { ['\"'] + Escape(Protect(value)) + ['\"'] }

  function PrintRow(row: CsvRow): string {
    if row == [] then []
    else if |row| == 1 then SafeCell(row[0])
    else SafeCell(row[0]) + [','] + PrintRow(row[1..])
  }

  function JoinRows(rows: seq<CsvRow>): string {
    if rows == [] then []
    else if |rows| == 1 then PrintRow(rows[0])
    else PrintRow(rows[0]) + "\r\n" + JoinRows(rows[1..])
  }

  function PrintCsv(rows: seq<CsvRow>): string { [BOM] + JoinRows(rows) + "\r\n" }

  function ProtectRow(row: CsvRow): CsvRow {
    seq(|row|, k requires 0 <= k < |row| => Protect(row[k]))
  }

  /** The rows that hold something, with their cells protected. */
  function Kept(rows: seq<CsvRow>): seq<CsvRow> {
    if rows == [] then []
    else (if BlankRow(rows[0]) then [] else [ProtectRow(rows[0])]) + Kept(rows[1..])
  }

  /** What is printed never starts a formula when a spreadsheet opens it. */
  lemma ProtectedIsSafe(value: string)
    ensures !UnsafeFormula(Protect(value))
  {
  }

  lemma {:induction false} TrimStartBlank(s: string)
    ensures IsBlank(s) <==> TrimStart(s) == []
    ensures TrimStart(s) != [] ==> !IsSpace(TrimStart(s)[0])
  {
    if s != [] && IsSpace(s[0]) {
      TrimStartBlank(s[1..]);
      assert s == [s[0]] + s[1..];
    } else if s != [] {
      assert s[0] in s;
    }
  }

  lemma ProtectKeepsBlank(value: string)
    ensures IsBlank(Protect(value)) <==> IsBlank(value)
  {
    TrimStartBlank(value);
    TrimStartBlank(Protect(value));
  }

  lemma ProtectRowKeepsBlank(row: CsvRow)
    ensures BlankRow(ProtectRow(row)) <==> BlankRow(row)
  {
    var protected := ProtectRow(row);
    forall k | 0 <= k < |row| ensures IsBlank(protected[k]) <==> IsBlank(row[k]) { ProtectKeepsBlank(row[k]); }
    if BlankRow(protected) {
      forall cell <- row ensures IsBlank(cell) {
        var k :| 0 <= k < |row| && row[k] == cell;
        assert protected[k] in protected;
      }
    }
    if BlankRow(row) {
      forall cell <- protected ensures IsBlank(cell) {
        var k :| 0 <= k < |row| && protected[k] == cell;
        assert row[k] in row;
      }
    }
  }

  // ----- Round trip -----

  predicate NoQuoteFirst(tail: string) { tail == [] || tail[0] != '\"' }

  lemma {:induction false} ScanEscaped(value: string, tail: string, st: State)
    requires st.quoted && NoQuoteFirst(tail)
    ensures Scan(Escape(value) + ['\"'] + tail, st) == Scan(tail, st.(value := st.value + value, quoted := false))
    decreases |value|
  {
    var text := Escape(value) + ['\"'] + tail;
    if value == [] {
      assert text == ['\"'] + tail && text[1..] == tail && st.value + value == st.value;
    } else {
      var next := st.(value := st.value + [value[0]]);
      ScanEscaped(value[1..], tail, next);
      assert next.value + value[1..] == st.value + value;
      var rest := Escape(value[1..]) + ['\"'] + tail;
      if value[0] == '\"' {
        assert text == ['\"', '\"'] + rest && text[2..] == rest;
      } else {
        assert text == [value[0]] + rest && text[1..] == rest;
      }
    }
  }

  lemma QuotedCell(value: string, tail: string)
    ensures ['\"'] + Escape(value) + ['\"'] + tail == ['\"'] + (Escape(value) + ['\"'] + tail)
  {
    Regroup(['\"'], Escape(value), ['\"']);
    Regroup(['\"'], Escape(value) + ['\"'], tail);
  }

  lemma ScanQuote(tail: string, st: State)
    requires !st.quoted && st.value == ""
    ensures Scan(['\"'] + tail, st) == Scan(tail, st.(quoted := true))
  {
    assert (['\"'] + tail)[1..] == tail;
  }

  lemma ScanCell(value: string, tail: string, st: State)
    requires !st.quoted && st.value == "" && NoQuoteFirst(tail)
    ensures Scan(SafeCell(value) + tail, st) == Scan(tail, st.(value := Protect(value)))
  {
    var rest := Escape(Protect(value)) + ['\"'] + tail;
    assert SafeCell(value) + tail == ['\"'] + rest by { QuotedCell(Protect(value), tail); }
    ScanQuote(rest, st);
    ScanEscaped(Protect(value), tail, st.(quoted := true));
    assert "" + Protect(value) == Protect(value);
  }

  /** The end of a printed line: the carriage return is taken off again. */
  lemma ScanLineEnd(tail: string, st: State)
    requires !st.quoted
    ensures Scan("\r\n" + tail, st)
         == Scan(tail, State(if BlankRow(st.row + [st.value]) then st.rows else st.rows + [st.row + [st.value]], [], "",
             false))
  {
    var text := "\r\n" + tail;
    var more := st.(value := st.value + ['\r']);
    assert text[1..][0] == '\n' && text[1..][1..] == tail;
    assert StripReturn(more.value) == st.value;
  }

  lemma ScanComma(tail: string, st: State)
    requires !st.quoted
    ensures Scan([','] + tail, st) == Scan(tail, st.(row := st.row + [st.value], value := ""))
  {
    assert ([','] + tail)[1..] == tail;
  }

  function Ended(st: State, whole: CsvRow): State {
    State(if BlankRow(whole) then st.rows else st.rows + [whole], [], "", false)
  }

  lemma ProtectFirst(row: CsvRow)
    requires row != []
    ensures ProtectRow(row) == [Protect(row[0])] + ProtectRow(row[1..])
  {
  }

  lemma {:induction false} ScanRow(row: CsvRow, tail: string, st: State)
    requires !st.quoted && st.value == "" && row != []
    ensures Scan(PrintRow(row) + ("\r\n" + tail), st) == Scan(tail, Ended(st, st.row + ProtectRow(row)))
    decreases |row|
  {
    var end, first := "\r\n" + tail, Protect(row[0]);
    ProtectFirst(row);
    if |row| == 1 {
      assert PrintRow(row) == SafeCell(row[0]) && ProtectRow(row) == [first];
      ScanCell(row[0], end, st);
      ScanLineEnd(tail, st.(value := first));
    } else {
      FirstCell(row, end, st);
      Regroup(st.row, [first], ProtectRow(row[1..]));
      ScanRow(row[1..], tail, st.(row := st.row + [first], value := ""));
    }
  }

  lemma FirstCell(row: CsvRow, end: string, st: State)
    requires !st.quoted && st.value == "" && |row| > 1
    ensures Scan(PrintRow(row) + end, st)
        == Scan(PrintRow(row[1..]) + end, st.(row := st.row + [Protect(row[0])], value := ""))
  {
    var rest := PrintRow(row[1..]) + end;
    assert PrintRow(row) + end == SafeCell(row[0]) + ([','] + rest);
    ScanCell(row[0], [','] + rest, st);
    ScanComma(rest, st.(value := Protect(row[0])));
  }

  lemma ScanPrintedRow(row: CsvRow, tail: string, rows: seq<CsvRow>)
    ensures Scan(PrintRow(row) + ("\r\n" + tail), State(rows, [], "", false))
         == Scan(tail, State(AfterRow(rows, row), [], "", false))
  {
    if row == [] {
      assert PrintRow(row) + ("\r\n" + tail) == "\r\n" + tail;
      ScanLineEnd(tail, State(rows, [], "", false));
      assert BlankRow([] + [""]);
    } else {
      ScanRow(row, tail, State(rows, [], "", false));
      assert [] + ProtectRow(row) == ProtectRow(row);
      ProtectRowKeepsBlank(row);
    }
  }

  function AfterRow(before: seq<CsvRow>, row: CsvRow): seq<CsvRow> {
    if BlankRow(row) then before else before + [ProtectRow(row)]
  }

  lemma KeptAfter(rows: seq<CsvRow>, before: seq<CsvRow>)
    requires rows != []
    ensures AfterRow(before, rows[0]) + Kept(rows[1..]) == before + Kept(rows)
  {
    if BlankRow(rows[0]) {
      assert [] + Kept(rows[1..]) == Kept(rows[1..]);
    } else {
      Regroup(before, [ProtectRow(rows[0])], Kept(rows[1..]));
    }
  }

  lemma {:induction false} ScanPrinted(rows: seq<CsvRow>, before: seq<CsvRow>)
    requires rows != []
    ensures Scan(JoinRows(rows) + "\r\n", State(before, [], "", false)) == Ok(State(before + Kept(rows), [], "", false))
    decreases |rows|
  {
    var after := AfterRow(before, rows[0]);
    KeptAfter(rows, before);
    if |rows| == 1 {
      ScanPrintedRow(rows[0], "", before);
      assert "\r\n" + "" == "\r\n" && rows[1..] == [] && after + [] == after;
    } else {
      var rest := JoinRows(rows[1..]);
      ScanPrinted(rows[1..], after);
      ScanPrintedRow(rows[0], rest + "\r\n", before);
      Regroup(PrintRow(rows[0]), "\r\n", rest + "\r\n");
      Regroup(PrintRow(rows[0]) + "\r\n", rest, "\r\n");
    }
  }

  /** Reading what was printed gives back the protected cells of every row that is not blank,
      for any text in the cells, exactly when the size limits are met. */
  lemma RoundTrip(rows: seq<CsvRow>)
    ensures var text := StripBom(PrintCsv(rows));
            Parse(text) == if Utf8Length(text) <= MAX_CSV_BYTES && WithinLimits(Kept(rows)) then Ok(Kept(rows))
                else Err(BadRequest)
  {
    Printed(rows);
    ScanWhole(rows);
    assert BlankRow([] + [StripReturn("")]);
  }

  lemma Printed(rows: seq<CsvRow>)
    ensures StripBom(PrintCsv(rows)) == JoinRows(rows) + "\r\n"
  {
    Regroup([BOM], JoinRows(rows), "\r\n");
  }

  lemma ScanWhole(rows: seq<CsvRow>)
    ensures Scan(JoinRows(rows) + "\r\n", START) == Ok(State(Kept(rows), [], "", false))
  {
    if rows == [] {
      assert JoinRows(rows) + "\r\n" == PrintRow([]) + ("\r\n" + "");
      ScanPrintedRow([], "", []);
    } else {
      ScanPrinted(rows, []);
      assert [] + Kept(rows) == Kept(rows);
    }
  }
}
