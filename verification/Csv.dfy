/** The CSV writer, and a reference reader for section 2 of RFC 4180 that undoes it. */
module Csv {
  import opened Common

  /** A cell before printing: nothing, a string, or anything else already rendered to text. */
  datatype Cell = Missing | Text(text: string) | Rendered(text: string)

  const CRLF := "\r\n"

  predicate IsSpecial(c: char) {
    c == ',' || c == '"' || c == '\r' || c == '\n'
  }

  predicate NeedsQuoting(t: string) {
    exists i :: 0 <= i < |t| && IsSpecial(t[i])
  }

  predicate NeedsGuard(t: string) {
    t != "" && t[0] in {'=', '+', '-', '@', '\t', '\r'}
  }

  /** The text a cell stands for once spreadsheets are kept from evaluating it. */
  function Guarded(cell: Cell): string {
    match cell
    case Missing => ""
    case Text(t) => if NeedsGuard(t) then "'" + t else t
    case Rendered(t) => t
  }

  function DoubleQuotes(t: string): string {
    if t == "" then "" else (if t[0] == '"' then "\"\"" else [t[0]]) + DoubleQuotes(t[1..])
  }

  function Field(t: string): string {
    if NeedsQuoting(t) then "\"" + DoubleQuotes(t) + "\"" else t
  }

  function ToCsvValue(cell: Cell): string {
    Field(Guarded(cell))
  }

  function Join(parts: seq<string>, separator: string): string {
    if parts == [] then "" else if |parts| == 1 then parts[0] else parts[0] + separator + Join(parts[1..], separator)
  }

  function ToCsvValues(cells: seq<Cell>): seq<string> {
    seq(|cells|, i requires 0 <= i < |cells| => ToCsvValue(cells[i]))
  }

  function ToCsvRow(cells: seq<Cell>): string {
    Join(ToCsvValues(cells), ",")
  }

  function ToCsvRows(rows: seq<seq<Cell>>): seq<string> {
    seq(|rows|, i requires 0 <= i < |rows| => ToCsvRow(rows[i]))
  }

  function HeaderCells(headers: seq<string>): seq<Cell> {
    seq(|headers|, i requires 0 <= i < |headers| => Text(headers[i]))
  }

  function ToCsvDocument(headers: seq<string>, rows: seq<seq<Cell>>): string {
    Join([ToCsvRow(HeaderCells(headers))] + ToCsvRows(rows), CRLF) + CRLF
  }

  // ---------- The reference reader ----------

  /** TEXTDATA of RFC 4180: everything but the comma, the quote and the two line characters. */
  predicate IsTextData(c: char) {
    c !in {',', '"', '\r', '\n'}
  }

  /** A run of ordinary characters and what follows it. */
  function ReadBare(s: string): (r: (string, string))
    ensures |r.1| <= |s|
  {
    if s == "" || !IsTextData(s[0]) then ("", s)
    else
      var (text, rest) := ReadBare(s[1..]);
      ([s[0]] + text, rest)
  }

  /** What stands between quotes, two quotes reading as one; the opening quote is already gone. */
  function ReadQuoted(s: string): (r: Option<(string, string)>)
    ensures r.Some? ==> |r.value.1| < |s|
  {
    if s == "" then None
    else if s[0] != '"' then Prepend(s[0], ReadQuoted(s[1..]))
    else if |s| > 1 && s[1] == '"' then Prepend('"', ReadQuoted(s[2..]))
    else Some(("", s[1..]))
  }

  function Prepend(c: char, r: Option<(string, string)>): Option<(string, string)> {
    if r.Some? then Some(([c] + r.value.0, r.value.1)) else None
  }

  function ReadField(s: string): (r: Option<(string, string)>)
    ensures r.Some? ==> |r.value.1| <= |s|
  {
    if s != "" && s[0] == '"' then ReadQuoted(s[1..]) else Some(ReadBare(s))
  }

  /** Fields up to a CRLF or the end of the text. */
  function ReadRecord(s: string): (r: Option<(seq<string>, string)>)
    ensures r.Some? && s != "" ==> |r.value.1| < |s|
    decreases |s|
  {
    var field := ReadField(s);
    if field.None? then None
    else
      var (text, rest) := field.value;
      if rest == "" then Some(([text], ""))
      else if rest[0] == ',' then
        var more := ReadRecord(rest[1..]);
        if more.Some? then Some(([text] + more.value.0, more.value.1)) else None
      else if |rest| > 1 && rest[..2] == CRLF then Some(([text], rest[2..]))
      else None
  }

  function ReadDocument(s: string): Option<seq<seq<string>>>
    decreases |s|
  {
    if s == "" then Some([])
    else
      var record := ReadRecord(s);
      if record.None? then None
      else
        var more := ReadDocument(record.value.1);
        if more.Some? then Some([record.value.0] + more.value) else None
  }

  // ---------- The writer, read back ----------

  lemma {:induction false} ReadBareField(t: string, tail: string)
    requires !NeedsQuoting(t) && (tail == "" || !IsTextData(tail[0]))
    ensures ReadBare(t + tail) == (t, tail)
  {
    if t == "" {
      assert t + tail == tail;
    } else {
      assert t == [t[0]] + t[1..] && !IsSpecial(t[0]);
      assert (t + tail)[1..] == t[1..] + tail;
      assert !NeedsQuoting(t[1..]) by {
        assert forall i :: 0 <= i < |t[1..]| ==> t[1..][i] == t[i + 1];
      }
      ReadBareField(t[1..], tail);
    }
  }

  lemma {:induction false} ReadQuotedField(t: string, tail: string)
    requires tail == "" || tail[0] != '"'
    ensures ReadQuoted(DoubleQuotes(t) + "\"" + tail) == Some((t, tail))
  {
    var s := DoubleQuotes(t) + "\"" + tail;
    if t == "" {
      assert s[1..] == tail;
    } else {
      var rest := DoubleQuotes(t[1..]) + "\"" + tail;
      ReadQuotedField(t[1..], tail);
      assert t == [t[0]] + t[1..];
      if t[0] == '"' {
        assert s[2..] == rest;
      } else {
        assert s[1..] == rest;
      }
    }
  }

  lemma ReadWrittenField(t: string, tail: string)
    requires tail == "" || tail[0] == ',' || tail[0] == '\r'
    ensures ReadField(Field(t) + tail) == Some((t, tail))
  {
    hide ReadQuoted, ReadBare, DoubleQuotes;
    var s := Field(t) + tail;
    if NeedsQuoting(t) {
      assert s[1..] == DoubleQuotes(t) + "\"" + tail;
      ReadQuotedField(t, tail);
    } else {
      ReadBareField(t, tail);
      assert t != "" ==> s[0] == t[0] && !IsSpecial(t[0]);
    }
  }

  /** What a reader sees of a row: its guarded texts, an empty row being one empty field. */
  function Visible(cells: seq<Cell>): seq<string> {
    if cells == [] then [""] else seq(|cells|, i requires 0 <= i < |cells| => Guarded(cells[i]))
  }

  lemma RowUnfold(cells: seq<Cell>)
    requires |cells| > 1
    ensures ToCsvRow(cells) == ToCsvValue(cells[0]) + "," + ToCsvRow(cells[1..])
  {
    hide ToCsvValue;
    assert ToCsvValues(cells)[1..] == ToCsvValues(cells[1..]);
  }

  lemma VisibleUnfold(cells: seq<Cell>)
    requires |cells| > 1
    ensures Visible(cells) == [Guarded(cells[0])] + Visible(cells[1..])
  {
    hide Guarded;
  }

  lemma ReadLastField(t: string, tail: string)
    ensures ReadRecord(Field(t) + CRLF + tail) == Some(([t], tail))
  {
    hide Field, ReadField;
    var end := CRLF + tail;
    assert Field(t) + CRLF + tail == Field(t) + end;
    ReadWrittenField(t, end);
    assert end[..2] == CRLF && end[2..] == tail;
  }

  lemma ReadFieldBefore(t: string, more: string)
    requires ReadRecord(more).Some?
    ensures ReadRecord(Field(t) + "," + more) == Some(([t] + ReadRecord(more).value.0, ReadRecord(more).value.1))
  {
    hide Field, ReadField;
    var rest := "," + more;
    assert Field(t) + "," + more == Field(t) + rest;
    ReadWrittenField(t, rest);
    assert rest[1..] == more;
  }

  lemma {:induction false} ReadWrittenRow(cells: seq<Cell>, tail: string)
    ensures ReadRecord(ToCsvRow(cells) + CRLF + tail) == Some((Visible(cells), tail))
    decreases |cells|
  {
    hide ReadRecord, Field, Guarded;
    if |cells| <= 1 {
      var t := if cells == [] then "" else Guarded(cells[0]);
      assert ToCsvRow(cells) == Field(t) by {
        EmptyField();
      }
      ReadLastField(t, tail);
      assert Visible(cells) == [t];
    } else {
      RowUnfold(cells);
      VisibleUnfold(cells);
      ReadWrittenRow(cells[1..], tail);
      var more := ToCsvRow(cells[1..]) + CRLF + tail;
      assert ToCsvRow(cells) + CRLF + tail == Field(Guarded(cells[0])) + "," + more;
      ReadFieldBefore(Guarded(cells[0]), more);
    }
  }

  lemma EmptyField()
    ensures Field("") == ""
  {}

  /** Rows one after another, each ended by CRLF. */
  function Lines(rows: seq<seq<Cell>>): string {
    if rows == [] then "" else ToCsvRow(rows[0]) + CRLF + Lines(rows[1..])
  }

  function AllVisible(rows: seq<seq<Cell>>): seq<seq<string>> {
    seq(|rows|, i requires 0 <= i < |rows| => Visible(rows[i]))
  }

  lemma {:induction false} JoinIsLines(rows: seq<seq<Cell>>)
    requires rows != []
    ensures Join(ToCsvRows(rows), CRLF) + CRLF == Lines(rows)
  {
    var texts, rest := ToCsvRows(rows), rows[1..];
    if rest == [] {
      assert Lines(rest) == "";
    } else {
      JoinIsLines(rest);
      assert texts[1..] == ToCsvRows(rest);
      assert Join(texts, CRLF) + CRLF == texts[0] + CRLF + (Join(texts[1..], CRLF) + CRLF);
    }
  }

  lemma DocumentIsLines(headers: seq<string>, rows: seq<seq<Cell>>)
    ensures ToCsvDocument(headers, rows) == Lines([HeaderCells(headers)] + rows)
  {
    hide ToCsvRow, HeaderCells, Join, Lines;
    var all := [HeaderCells(headers)] + rows;
    JoinIsLines(all);
    assert [ToCsvRow(HeaderCells(headers))] + ToCsvRows(rows) == ToCsvRows(all);
  }

  lemma {:induction false} ReadWrittenLines(rows: seq<seq<Cell>>)
    ensures ReadDocument(Lines(rows)) == Some(AllVisible(rows))
  {
    hide ReadRecord;
    if rows != [] {
      ReadWrittenRow(rows[0], Lines(rows[1..]));
      ReadWrittenLines(rows[1..]);
      assert Lines(rows) == ToCsvRow(rows[0]) + CRLF + Lines(rows[1..]) != "";
      assert AllVisible(rows) == [Visible(rows[0])] + AllVisible(rows[1..]);
    } else {
      assert AllVisible(rows) == [];
    }
  }

  /** Reading the document gives back exactly the header and the guarded rows, whatever they contain. */
  lemma DocumentReadsBack(headers: seq<string>, rows: seq<seq<Cell>>)
    ensures ReadDocument(ToCsvDocument(headers, rows)) == Some(AllVisible([HeaderCells(headers)] + rows))
  {
    DocumentIsLines(headers, rows);
    ReadWrittenLines([HeaderCells(headers)] + rows);
  }

  lemma {:induction false} LinesDependOnVisible(rows: seq<seq<Cell>>, others: seq<seq<Cell>>)
    requires AllVisible(rows) == AllVisible(others)
    ensures Lines(rows) == Lines(others)
  {
    assert |rows| == |AllVisible(rows)| == |others|;
    if rows != [] {
      var a, b := rows[0], others[0];
      assert AllVisible(rows)[0] == Visible(a) && AllVisible(others)[0] == Visible(b);
      RowDependsOnVisible(a);
      RowDependsOnVisible(b);
      assert AllVisible(rows[1..]) == AllVisible(rows)[1..] == AllVisible(others)[1..] == AllVisible(others[1..]);
      LinesDependOnVisible(rows[1..], others[1..]);
    }
  }

  function Fields(texts: seq<string>): seq<string> {
    seq(|texts|, i requires 0 <= i < |texts| => Field(texts[i]))
  }

  lemma RowDependsOnVisible(cells: seq<Cell>)
    ensures ToCsvRow(cells) == Join(Fields(Visible(cells)), ",")
  {
    if cells == [] {
      assert Fields([""]) == [""];
    } else {
      assert Fields(Visible(cells)) == ToCsvValues(cells);
    }
  }

  /** Two documents are the same text exactly when a reader sees the same rows in them. */
  lemma DocumentInjective(headers: seq<string>, rows: seq<seq<Cell>>, headers': seq<string>, rows': seq<seq<Cell>>)
    ensures ToCsvDocument(headers, rows) == ToCsvDocument(headers', rows')
       <==> AllVisible([HeaderCells(headers)] + rows) == AllVisible([HeaderCells(headers')] + rows')
  {
    DocumentReadsBack(headers, rows);
    DocumentReadsBack(headers', rows');
    DocumentIsLines(headers, rows);
    DocumentIsLines(headers', rows');
    if AllVisible([HeaderCells(headers)] + rows) == AllVisible([HeaderCells(headers')] + rows') {
      LinesDependOnVisible([HeaderCells(headers)] + rows, [HeaderCells(headers')] + rows');
    }
  }

  lemma {:induction false} RecordsAreNotEmpty(s: string)
    requires ReadDocument(s).Some?
    ensures forall i :: 0 <= i < |ReadDocument(s).value| ==> ReadDocument(s).value[i] != []
    decreases |s|
  {
    if s != "" {
      RecordsAreNotEmpty(ReadRecord(s).value.1);
    }
  }

  function AsCells(records: seq<seq<string>>): seq<seq<Cell>> {
    seq(|records|, i requires 0 <= i < |records| =>
      seq(|records[i]|, j requires 0 <= j < |records[i]| => Rendered(records[i][j])))
  }

  /** The other way round: whatever text the reader accepts, printing what it saw reads the same. */
  lemma ReprintReadsBack(s: string)
    requires ReadDocument(s).Some?
    ensures ReadDocument(Lines(AsCells(ReadDocument(s).value))) == ReadDocument(s)
  {
    hide ReadDocument;
    var records := ReadDocument(s).value;
    RecordsAreNotEmpty(s);
    ReadWrittenLines(AsCells(records));
    assert AllVisible(AsCells(records)) == records by {
      forall i | 0 <= i < |records| ensures AllVisible(AsCells(records))[i] == records[i] {
        assert Visible(AsCells(records)[i]) == records[i];
      }
    }
  }

  /** A reader of one cell gets the text that was written exactly when the guard had nothing to do. */
  lemma GuardAltersTheValue(t: string)
    ensures ReadField(ToCsvValue(Text(t))) == Some((t, "")) <==>
      !(t != "" && (t[0] == '=' || t[0] == '+' || t[0] == '-' || t[0] == '@' || t[0] == '\t' || t[0] == '\r'))
    ensures ReadField(ToCsvValue(Text(t))) == Some((t, "")) || ReadField(ToCsvValue(Text(t))) == Some(("'" + t, ""))
  {
    ReadWrittenField(Guarded(Text(t)), "");
    assert Field(Guarded(Text(t))) + "" == ToCsvValue(Text(t));
  }

  /** Anything but text is written as it is, and nothing is written for what is missing. */
  lemma OnlyTextIsGuarded(t: string)
    ensures ReadField(ToCsvValue(Rendered(t))) == Some((t, "")) && ToCsvValue(Missing) == ""
  {
    ReadWrittenField(t, "");
    assert Field(t) + "" == ToCsvValue(Rendered(t));
    EmptyField();
  }

  /** Quotes are put around a field exactly when it holds a comma, a quote or a line character. */
  lemma QuotedWhenNeeded(t: string)
    ensures ToCsvValue(Rendered(t)) == t <==> forall i :: 0 <= i < |t| ==> t[i] != ',' && t[i] != '"' && t[i] != '\r' && t[i] != '\n'
  {
    if NeedsQuoting(t) {
      QuotesOnlyAdd(t);
    }
  }

  lemma {:induction false} QuotesOnlyAdd(t: string)
    ensures |DoubleQuotes(t)| >= |t|
  {
    if t != "" {
      QuotesOnlyAdd(t[1..]);
    }
  }

  /** The guard loses one bit: two strings print alike exactly when one is the other, guarded, with its
      apostrophe typed in. */
  lemma GuardCollisions(a: string, b: string)
    ensures ToCsvValue(Text(a)) == ToCsvValue(Text(b))
       <==> a == b || (NeedsGuard(a) && b == "'" + a) || (NeedsGuard(b) && a == "'" + b)
  {
    var x, y := Guarded(Text(a)), Guarded(Text(b));
    ReadWrittenField(x, "");
    ReadWrittenField(y, "");
    assert Field(x) + "" == Field(x) && Field(y) + "" == Field(y);
    if x == y {
      assert NeedsGuard(a) ==> x[1..] == a;
      assert NeedsGuard(b) ==> y[1..] == b;
    }
  }

  /** A formula is read back with an apostrophe before it, and cannot be told from that text typed in. */
  lemma FormulaIsAltered()
    ensures ReadField(ToCsvValue(Text("=x"))) == Some(("'=x", ""))
    ensures ToCsvValue(Text("=x")) == ToCsvValue(Text("'=x"))
  {
    assert Guarded(Text("=x")) == "'=x";
    ReadWrittenField("'=x", "");
    assert Field("'=x") + "" == ToCsvValue(Text("=x"));
  }
}
