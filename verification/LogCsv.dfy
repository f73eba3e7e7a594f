/** The recognition-log export: cells are escaped, joined and prefixed by a byte-order mark; a reader that follows
    section 2 of RFC 4180 gets the cells back. */
module LogCsv {
  import opened Wrappers

  const QUOTE := '"'
  const COMMA := ','
  const CR := '\r'
  const LF := '\n'
  const MARK := '\U{FEFF}'

  type Cell = string
  type Row = seq<Cell>

  // ---------------------------------------------------------------- the printer

  predicate Special(c: char) { c == QUOTE || c == COMMA || c == CR || c == LF }

  predicate NeedsQuotes(cell: Cell) { exists i | 0 <= i < |cell| :: Special(cell[i]) }

  function Doubled(cell: Cell): string {
    if cell == [] then [] else (if cell[0] == QUOTE then [QUOTE, QUOTE] else [cell[0]]) + Doubled(cell[1..])
  }

  function Escaped(cell: Cell): string {
    if NeedsQuotes(cell) then [QUOTE] + Doubled(cell) + [QUOTE] else cell
  }

  function Joined(parts: seq<string>, separator: string): string {
    if parts == [] then [] else if |parts| == 1 then parts[0] else parts[0] + separator + Joined(parts[1..], separator)
  }

  function EscapedCells(row: Row): seq<string> { seq(|row|, i requires 0 <= i < |row| => Escaped(row[i])) }

  function PrintedRow(row: Row): string { Joined(EscapedCells(row), [COMMA]) }

  function PrintedRows(rows: seq<Row>): seq<string> { seq(|rows|, i requires 0 <= i < |rows| => PrintedRow(rows[i])) }

  function Printed(rows: seq<Row>): string { [MARK] + Joined(PrintedRows(rows), [CR, LF]) }

  /** A cell is printed as it is exactly if it holds no quote, no comma and no line break. */
  lemma PlainStays(cell: Cell)
    ensures Escaped(cell) == cell <==> forall i | 0 <= i < |cell| :: cell[i] !in {'"', ',', '\r', '\n'}
  {
    DoubledIsLonger(cell);
  }

  lemma {:induction false} DoubledIsLonger(cell: Cell)
    ensures |Doubled(cell)| >= |cell|
  {
    if cell != [] { DoubledIsLonger(cell[1..]); }
  }

  // ---------------------------------------------------------------- the reader

  datatype Field = Field(cell: Cell, rest: string)

  datatype Record = Record(row: Row, rest: string)

  /** TEXTDATA: neither a comma, nor a quote, nor a line break. */
  function ReadPlain(s: string): (f: Field)
    ensures |f.rest| <= |s|
  {
    if s == [] || Special(s[0]) then Field([], s) else
    var f := ReadPlain(s[1..]);
    Field([s[0]] + f.cell, f.rest)
  }

  /** The inside of a quoted field: everything up to a quote that is not doubled. */
  function ReadQuoted(s: string): (f: Option<Field>)
    ensures f.Some? ==> |f.value.rest| < |s|
  {
    if s == [] then None
    else if s[0] != QUOTE then
      match ReadQuoted(s[1..])
      case None => None
      case Some(f) => Some(Field([s[0]] + f.cell, f.rest))
    else if |s| > 1 && s[1] == QUOTE then
      match ReadQuoted(s[2..])
      case None => None
      case Some(f) => Some(Field([QUOTE] + f.cell, f.rest))
    else Some(Field([], s[1..]))
  }

  function ReadField(s: string): (f: Option<Field>)
    ensures f.Some? ==> |f.value.rest| <= |s|
  {
    if s != [] && s[0] == QUOTE then ReadQuoted(s[1..]) else Some(ReadPlain(s))
  }

  /** Fields up to a line break or the end; a comma promises another field. */
  function ReadRecord(s: string): (r: Option<Record>)
    ensures r.Some? ==> |r.value.rest| <= |s| && (r.value.rest == [] || [CR, LF] <= r.value.rest)
    decreases |s|
  {
    match ReadField(s)
    case None => None
    case Some(f) =>
      if f.rest == [] || [CR, LF] <= f.rest then Some(Record([f.cell], f.rest))
      else if f.rest[0] != COMMA then None
      else
        match ReadRecord(f.rest[1..])
        case None => None
        case Some(r) => Some(Record([f.cell] + r.row, r.rest))
  }

  /** Records separated by line breaks; the last one may or may not end with one. */
  function ReadRecords(s: string): Option<seq<Row>>
    decreases |s|
  {
    match ReadRecord(s)
    case None => None
    case Some(r) =>
      if r.rest == [] || r.rest == [CR, LF] then Some([r.row])
      else
        match ReadRecords(r.rest[2..])
        case None => None
        case Some(rows) => Some([r.row] + rows)
  }

  function Read(s: string): Option<seq<Row>> {
    ReadRecords(if s != [] && s[0] == MARK then s[1..] else s)
  }

  // ---------------------------------------------------------------- reading what was printed

  /** A field ends at the end of the text, at a comma or at a line break. */
  predicate Ends(rest: string) { rest == [] || rest[0] == COMMA || [CR, LF] <= rest }

  /** One character of a quoted field, as it is printed. */
  lemma ReadOne(c: char, tail: string)
    requires ReadQuoted(tail).Some?
    ensures ReadQuoted((if c == QUOTE then [QUOTE, QUOTE] else [c]) + tail)
         == Some(Field([c] + ReadQuoted(tail).value.cell, ReadQuoted(tail).value.rest))
  {
    var s := (if c == QUOTE then [QUOTE, QUOTE] else [c]) + tail;
    assert s[if c == QUOTE then 2 else 1..] == tail;
  }

  lemma {:induction false} ReadDoubled(cell: Cell, rest: string)
    requires rest == [] || rest[0] != QUOTE
    ensures ReadQuoted(Doubled(cell) + [QUOTE] + rest) == Some(Field(cell, rest))
  {
    if cell == [] {
      var s := Doubled(cell) + [QUOTE] + rest;
      assert s == [QUOTE] + rest && s[1..] == rest;
    } else {
      hide ReadQuoted;
      var tail := Doubled(cell[1..]) + [QUOTE] + rest;
      ReadDoubled(cell[1..], rest);
      ReadOne(cell[0], tail);
      assert Doubled(cell) + [QUOTE] + rest == (if cell[0] == QUOTE then [QUOTE, QUOTE] else [cell[0]]) + tail;
      assert [cell[0]] + cell[1..] == cell;
    }
  }

  lemma {:induction false} ReadUnquoted(cell: Cell, rest: string)
    requires !NeedsQuotes(cell) && Ends(rest)
    ensures ReadPlain(cell + rest) == Field(cell, rest)
  {
    if cell == [] {
      assert cell + rest == rest;
      if rest != [] { assert Special(rest[0]); }
    } else {
      assert !Special(cell[0]);
      forall i | 0 <= i < |cell[1..]| ensures !Special(cell[1..][i]) { assert !Special(cell[i + 1]); }
      ReadUnquoted(cell[1..], rest);
      assert (cell + rest)[1..] == cell[1..] + rest;
    }
  }

  /** Whatever quotes, commas and line breaks a cell holds, reading its printed form gives it back. */
  lemma ReadEscaped(cell: Cell, rest: string)
    requires Ends(rest)
    ensures ReadField(Escaped(cell) + rest) == Some(Field(cell, rest))
  {
    hide Doubled, ReadQuoted, ReadPlain;
    var s := Escaped(cell) + rest;
    if NeedsQuotes(cell) {
      assert s == [QUOTE] + (Doubled(cell) + [QUOTE] + rest);
      ReadDoubled(cell, rest);
    } else {
      ReadUnquoted(cell, rest);
      assert s == cell + rest;
      if cell != [] { assert s[0] == cell[0] && !Special(cell[0]); } else { assert s == rest; }
    }
  }

  lemma JoinedTail(parts: seq<string>, separator: string, rest: string)
    requires |parts| > 1
    ensures Joined(parts, separator) + rest == parts[0] + (separator + (Joined(parts[1..], separator) + rest))
  {}

  lemma {:induction false} ReadRow(row: Row, rest: string)
    requires row != [] && (rest == [] || [CR, LF] <= rest)
    ensures ReadRecord(PrintedRow(row) + rest) == Some(Record(row, rest))
    decreases |row|
  {
    hide Escaped, ReadField;
    if |row| == 1 {
      ReadEscaped(row[0], rest);
      assert PrintedRow(row) == Escaped(row[0]);
      assert row == [row[0]];
    } else {
      var tail := PrintedRow(row[1..]) + rest;
      assert EscapedCells(row)[1..] == EscapedCells(row[1..]);
      JoinedTail(EscapedCells(row), [COMMA], rest);
      ReadEscaped(row[0], [COMMA] + tail);
      ReadRow(row[1..], rest);
      assert ([COMMA] + tail)[1..] == tail && ([COMMA] + tail)[0] == COMMA;
      assert [row[0]] + row[1..] == row;
    }
  }

  /** A row of two cells or more prints its commas, so its line is never empty. */
  lemma PrintsSomething(rows: seq<Row>)
    requires rows != [] && |rows[0]| > 1
    ensures Joined(PrintedRows(rows), [CR, LF]) != []
  {
    assert PrintedRows(rows)[0] == PrintedRow(rows[0]);
    JoinedTail(EscapedCells(rows[0]), [COMMA], []);
    assert PrintedRow(rows[0]) + [] == PrintedRow(rows[0]);
    assert PrintedRow(rows[0]) != [];
  }

  lemma {:induction false} ReadRows(rows: seq<Row>)
    requires rows != [] && forall i | 0 <= i < |rows| :: |rows[i]| > 1
    ensures ReadRecords(Joined(PrintedRows(rows), [CR, LF])) == Some(rows)
    decreases |rows|
  {
    hide PrintedRow, ReadRecord;
    if |rows| == 1 {
      ReadRow(rows[0], []);
      assert PrintedRow(rows[0]) + [] == PrintedRow(rows[0]) && rows == [rows[0]];
    } else {
      var tail := Joined(PrintedRows(rows[1..]), [CR, LF]);
      assert PrintedRows(rows)[1..] == PrintedRows(rows[1..]);
      assert Joined(PrintedRows(rows), [CR, LF]) == PrintedRow(rows[0]) + ([CR, LF] + tail);
      ReadRow(rows[0], [CR, LF] + tail);
      ReadRows(rows[1..]);
      PrintsSomething(rows[1..]);
      assert ([CR, LF] + tail)[2..] == tail;
      assert [rows[0]] + rows[1..] == rows;
    }
  }

  /** The export is invertible: a reader of RFC 4180 recovers every cell of every list of rows of several cells. */
  lemma ExportIsInvertible(rows: seq<Row>)
    requires rows != [] && forall i | 0 <= i < |rows| :: |rows[i]| > 1
    ensures Read(Printed(rows)) == Some(rows)
  {
    hide Joined, ReadRecords, PrintedRows;
    ReadRows(rows);
    assert Printed(rows)[1..] == Joined(PrintedRows(rows), [CR, LF]);
  }
}
