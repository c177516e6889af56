/** `exportToSQL`: a `CREATE TABLE` statement typed from the first record
    and one `INSERT` listing a value tuple per record, built by appending
    to a string in two loops. */
module SqlExport {
  import opened Values
  import opened Cells

  /** The column type: `INT` when the first record's value is a number. */
  function SqlType(v: Option<Cell>): (r: string)
    ensures r == "INT" <==> IsNumber(v)
    ensures |r| > 0 && r[|r| - 1] != ','
  {
    if IsNumber(v) then "INT" else "VARCHAR(255)"
  }

  /** The definition line of column `idx` of `columns`. */
  function ColumnLine(sample: Obj<Cell>, columns: seq<string>, idx: nat): string
    requires idx < |columns|
  {
    "    " + columns[idx] + " " + SqlType(ObjGet(sample, columns[idx])) + (if idx < |columns| - 1 then "," else "") + "\n"
  }

  function ColumnLines(sample: Obj<Cell>, columns: seq<string>): (r: seq<string>)
    ensures |r| == |columns|
  {
    seq(|columns|, idx requires 0 <= idx < |columns| => ColumnLine(sample, columns, idx))
  }

  /** How one value is written into a tuple: a string quoted with its
      quotes doubled, a boolean as `1` or `0`, anything else as the array
      join writes it. */
  function Slot(v: Option<Cell>): (r: string)
    ensures v.Some? && v.value.Str? ==> r == Quote(v.value.s)
    ensures v.Some? && v.value.Flag? ==> r == (if v.value.b then "1" else "0")
    ensures v.Some? && v.value.Int? ==> r == IntToDecimal(v.value.n)
    ensures v.None? ==> r == ""
  {
    if v.Some? && v.value.Str? then Quote(v.value.s)
    else if v.Some? && v.value.Flag? then (if v.value.b then "1" else "0")
    else JoinSlot(v)
  }

  function Slots(record: Obj<Cell>, columns: seq<string>): (r: seq<string>)
    ensures |r| == |columns|
  {
    seq(|columns|, k requires 0 <= k < |columns| => Slot(ObjGet(record, columns[k])))
  }

  /** The tuple line of record `idx`. */
  function TupleLine(data: seq<Obj<Cell>>, columns: seq<string>, idx: nat): string
    requires idx < |data|
  {
    "(" + Join(Slots(data[idx], columns), ", ") + ")" + (if idx < |data| - 1 then "," else ";") + "\n"
  }

  function TupleLines(data: seq<Obj<Cell>>, columns: seq<string>): (r: seq<string>)
    ensures |r| == |data|
  {
    seq(|data|, idx requires 0 <= idx < |data| => TupleLine(data, columns, idx))
  }

  function Columns(data: seq<Obj<Cell>>): seq<string>
    requires |data| > 0
  {
    data[0].keys
  }

  function CreateHead(tableName: string): string {
    "CREATE TABLE " + tableName + " (\n"
  }

  function InsertHead(tableName: string, columns: seq<string>): string {
    ");\n\nINSERT INTO " + tableName + " (" + Join(columns, ", ") + ") VALUES\n"
  }

  /** The text `exportToSQL` returns: nothing for no records. */
  function SqlText(data: seq<Obj<Cell>>, tableName: string): (r: string)
    ensures r == "" <==> |data| == 0
  {
    if |data| == 0 then ""
    else
      var columns := Columns(data);
      var r := CreateHead(tableName) + Concat(ColumnLines(data[0], columns))
               + InsertHead(tableName, columns) + Concat(TupleLines(data, columns));
      assert r[0] == 'C';
      r
  }

  /** `exportToSQL(data, tableName)`. */
  method ExportToSql(data: seq<Obj<Cell>>, tableName: string := "GeneratedData") returns (sql: string)
    ensures sql == SqlText(data, tableName)
  {
    if |data| == 0 {
      return "";
    }
    var columns := data[0].keys;
    var defs := AppendColumns(CreateHead(tableName), data[0], columns);
    sql := AppendTuples(defs + InsertHead(tableName, columns), data, columns);
  }

  /** The first loop: one definition line per column of the first record. */
  method AppendColumns(start: string, sample: Obj<Cell>, columns: seq<string>) returns (sql: string)
    ensures sql == start + Concat(ColumnLines(sample, columns))
  {
    sql := start;
    ghost var defs := ColumnLines(sample, columns);
    for idx := 0 to |columns|
      invariant sql == start + Concat(defs[..idx])
    {
      var dataType := SqlType(ObjGet(sample, columns[idx]));
      var comma := if idx < |columns| - 1 then "," else "";
      var line := "    " + columns[idx] + " " + dataType + comma + "\n";
      assert line == ColumnLine(sample, columns, idx) == defs[idx];
      ConcatAppend(start, sql, defs, idx);
      sql := sql + line;
    }
    assert defs[..|columns|] == defs;
  }

  /** The second loop: one tuple line per record. */
  method AppendTuples(start: string, data: seq<Obj<Cell>>, columns: seq<string>) returns (sql: string)
    ensures sql == start + Concat(TupleLines(data, columns))
  {
    sql := start;
    ghost var tuples := TupleLines(data, columns);
    for idx := 0 to |data|
      invariant sql == start + Concat(tuples[..idx])
    {
      var values := Slots(data[idx], columns);
      var comma := if idx < |data| - 1 then "," else ";";
      var line := "(" + Join(values, ", ") + ")" + comma + "\n";
      assert line == TupleLine(data, columns, idx) == tuples[idx];
      ConcatAppend(start, sql, tuples, idx);
      sql := sql + line;
    }
    assert tuples[..|data|] == tuples;
  }

  // ---------------------------------------------------------------------
  // Properties of the statement text
  // ---------------------------------------------------------------------

  /** Every column definition but the last ends in a comma; the type is
      `INT` exactly for a number in the first record. */
  lemma ColumnCommas(sample: Obj<Cell>, columns: seq<string>, idx: nat)
    requires idx < |columns|
    ensures var line := ColumnLines(sample, columns)[idx];
      && |line| >= 2 && line[|line| - 1] == '\n'
      && (line[|line| - 2] == ',' <==> idx < |columns| - 1)
  {
    var t := SqlType(ObjGet(sample, columns[idx]));
    var line := ColumnLines(sample, columns)[idx];
    if idx < |columns| - 1 {
      assert line == "    " + columns[idx] + " " + t + ",\n";
    } else {
      assert line == "    " + columns[idx] + " " + t + "\n";
      assert line[|line| - 2] == t[|t| - 1];
    }
  }

  /** One tuple per record, in input order: tuple `idx` lists record
      `idx`'s values and ends in `,`, except the last, which ends in `;`. */
  lemma TupleTerminators(data: seq<Obj<Cell>>, columns: seq<string>, idx: nat)
    requires idx < |data|
    ensures var line := TupleLines(data, columns)[idx];
      && line == "(" + Join(Slots(data[idx], columns), ", ") + ")" + [line[|line| - 2]] + "\n"
      && (line[|line| - 2] == ';' <==> idx == |data| - 1)
      && (line[|line| - 2] == ',' <==> idx < |data| - 1)
  {
  }

  /** A string value is written as a literal whose body reads back as the
      value and holds no lone quote; the slot of a boolean is a digit. */
  lemma SlotRoundTrip(s: string)
    ensures var q := Slot(Some(Str(s)));
      && |q| >= 2 && q[0] == '\'' && q[|q| - 1] == '\''
      && Unescape(q[1..|q| - 1]) == s && Paired(q[1..|q| - 1])
  {
  }
}
