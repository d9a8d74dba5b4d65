/** The paged CSV export: one page at a time, up to a ceiling, as one document. */
module Export {
  import opened Common
  import opened Csv
  import opened Rounding

  const MAX_ROWS := 50_000
  const PAGE_SIZE := 200

  type Row = seq<Cell>

  /** One page of a list that does not change while it is read. */
  function Fetch(table: seq<Row>, offset: nat, limit: nat): (page: seq<Row>)
    ensures offset <= |table| ==> |page| == Min(limit, |table| - offset) && page <= table[offset..]
  {
    if offset <= |table| then table[offset..Min(offset + limit, |table|)] else []
  }

  /** The lines that carry rows, each already terminated. */
  function Terminated(rows: seq<Row>): seq<string> {
    seq(|rows|, i requires 0 <= i < |rows| => ToCsvRow(rows[i]) + CRLF)
  }

  function Concat(lines: seq<string>): string {
    if lines == [] then "" else lines[0] + Concat(lines[1..])
  }

  /** The rows an export covers: the first fifty thousand. */
  function Exported(table: seq<Row>): seq<Row> {
    if |table| <= 50_000 then table else table[..50_000]
  }

  lemma NoLines(table: seq<Row>)
    ensures Terminated(table[..0]) == []
  {}

  lemma TerminatedNext(table: seq<Row>, k: nat)
    requires k < |table|
    ensures Terminated(table[..k + 1]) == Terminated(table[..k]) + [ToCsvRow(table[k]) + CRLF]
  {}

  /** The generator, its yields collected: the header line, then every exported row once and in order. */
  method Rows(headers: seq<string>, table: seq<Row>) returns (lines: seq<string>)
    ensures lines == [ToCsvRow(HeaderCells(headers)) + CRLF] + Terminated(Exported(table))
  {
    hide ToCsvRow, HeaderCells, Terminated;
    var header := ToCsvRow(HeaderCells(headers)) + CRLF;
    assert Terminated(table[..0]) == [] by { NoLines(table); }
    lines := [header];
    var offset := 0;
    while true
      invariant offset <= |table| && offset < MAX_ROWS && offset % PAGE_SIZE == 0
      invariant lines == [header] + Terminated(table[..offset])
      decreases |table| + 1 - offset
    {
      var page := Fetch(table, offset, PAGE_SIZE);
      for i := 0 to |page|
        invariant lines == [header] + Terminated(table[..offset + i])
      {
        TerminatedNext(table, offset + i);
        lines := lines + [ToCsvRow(page[i]) + CRLF];
      }
      offset := offset + |page|;
      if |page| < PAGE_SIZE || offset >= MAX_ROWS { break; }
    }
    assert table[..offset] == Exported(table);
  }

  lemma {:induction false} ConcatTerminated(rows: seq<Row>)
    ensures Concat(Terminated(rows)) == Lines(rows)
  {
    if rows != [] {
      ConcatTerminated(rows[1..]);
      assert Terminated(rows)[1..] == Terminated(rows[1..]);
    }
  }

  /**
   * The bytes sent are the CSV document of the first fifty thousand rows, and a reader of that
   * document sees the header and each of those rows once, in order.
   */
  lemma ExportIsTheDocument(headers: seq<string>, table: seq<Row>)
    ensures var sent := Concat([ToCsvRow(HeaderCells(headers)) + CRLF] + Terminated(Exported(table)));
      && sent == ToCsvDocument(headers, Exported(table))
      && ReadDocument(sent) == Some(AllVisible([HeaderCells(headers)] + Exported(table)))
  {
    hide ToCsvRow, HeaderCells, Exported, Visible, ReadDocument;
    var all := [HeaderCells(headers)] + Exported(table);
    assert [ToCsvRow(HeaderCells(headers)) + CRLF] + Terminated(Exported(table)) == Terminated(all);
    ConcatTerminated(all);
    DocumentIsLines(headers, Exported(table));
    DocumentReadsBack(headers, Exported(table));
  }
}
