/** `exportToTXT`: the tab-separated text it downloads, a header line of
    the first record's keys followed by one line per record. */
module TxtExport {
  import opened Values
  import opened Cells

  /** The cells of one record under the header columns, as `String(...)`
      writes them. */
  function RowCells(record: Obj<Cell>, columns: seq<string>): (r: seq<string>)
    ensures |r| == |columns|
  {
    seq(|columns|, k requires 0 <= k < |columns| => StringOf(ObjGet(record, columns[k])))
  }

  /** The `lines` array: the header, then each record's row in order. */
  function TxtLines(data: seq<Obj<Cell>>): (lines: seq<string>)
    requires |data| > 0
    ensures |lines| == |data| + 1
    ensures lines[0] == Join(data[0].keys, "\t")
    ensures forall i :: 0 <= i < |data| ==> lines[i + 1] == Join(RowCells(data[i], data[0].keys), "\t")
  {
    var columns := data[0].keys;
    [Join(columns, "\t")] + seq(|data|, i requires 0 <= i < |data| => Join(RowCells(data[i], columns), "\t"))
  }

  /** The content of the downloaded file; no file at all for no records. */
  function ExportToTxt(data: seq<Obj<Cell>>): (r: Option<string>)
    ensures r.None? <==> |data| == 0
  {
    if |data| == 0 then None else Some(Join(TxtLines(data), "\n"))
  }

  /** No tab or newline in a piece of text. */
  predicate Plain(s: string) {
    '\t' !in s && '\n' !in s
  }

  /** When the first record has keys and no column name and no value text
      holds a tab or a newline, the file reads back as its lines, the header
      as the columns in order and line `i + 1` as record `i`'s value texts
      in column order. */
  lemma TxtReadBack(data: seq<Obj<Cell>>)
    requires |data| > 0 && |data[0].keys| > 0
    requires forall k :: 0 <= k < |data[0].keys| ==> Plain(data[0].keys[k])
    requires forall i, k :: 0 <= i < |data| && 0 <= k < |data[0].keys| ==> Plain(RowCells(data[i], data[0].keys)[k])
    ensures var lines := TxtLines(data);
      && Split(ExportToTxt(data).value, '\n') == lines
      && Split(lines[0], '\t') == data[0].keys
      && forall i :: 0 <= i < |data| ==> Split(lines[i + 1], '\t') == RowCells(data[i], data[0].keys)
  {
    var columns := data[0].keys;
    var lines := TxtLines(data);
    LineReadBack(columns);
    forall j | 0 <= j < |lines| ensures '\n' !in lines[j] {
      if j == 0 {
        JoinFree(columns, "\t", '\n');
      } else {
        JoinFree(RowCells(data[j - 1], columns), "\t", '\n');
      }
    }
    SplitJoin(lines, '\n');
    forall i | 0 <= i < |data| ensures Split(lines[i + 1], '\t') == RowCells(data[i], columns) {
      LineReadBack(RowCells(data[i], columns));
    }
  }

  /** One line reads back as its cells. */
  lemma LineReadBack(cells: seq<string>)
    requires forall k :: 0 <= k < |cells| ==> Plain(cells[k])
    ensures Split(Join(cells, "\t"), '\t') == (if |cells| == 0 then [""] else cells)
  {
    if |cells| > 0 {
      SplitJoin(cells, '\t');
    }
  }
}
