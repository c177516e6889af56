/** The example exporters: `SQLExporter.export` (a commented header, a
    `CREATE TABLE IF NOT EXISTS` typed by column name and first value, and
    one `INSERT` of escaped tuples), `TXTExporter.export` (a banner and an
    aligned table of padded cells with a dotted separator after every
    tenth row) and `Exporter.getPreview`. */
module ExampleExporters {
  import opened Values
  import opened Cells

  const NO_SQL_DATA := "-- No data to export"
  const NO_TXT_DATA := "No data to export"
  const DEFAULT_TABLE := "GeneratedData"
  /** The widest a text column is laid out. */
  const MAX_WIDTH := 50
  /** How many leading rows set the column widths. */
  const WIDTH_SAMPLE := 100

  // ---------------------------------------------------------------------
  // SQL
  // ---------------------------------------------------------------------

  /** `options.tableName || 'GeneratedData'`. */
  function TableName(option: Option<string>): (r: string)
    ensures r != ""
    ensures Truthy(option) ==> r == option.value
  {
    if Truthy(option) then option.value else DEFAULT_TABLE
  }

  predicate IsHex(c: char) {
    IsDigit(c) || 'a' <= c <= 'f' || 'A' <= c <= 'F'
  }

  /** The UUID pattern, letters in either case: 8-4-4-4-12 hex digits. */
  predicate IsUuid(s: string) {
    |s| == 36 && forall i :: 0 <= i < 36 ==> if i == 8 || i == 13 || i == 18 || i == 23 then s[i] == '-' else IsHex(s[i])
  }

  /** The type a column name decides on its own, tested in a fixed order. */
  function NameType(lowerName: string): Option<string> {
    if Includes(lowerName, "id") then Some("INT PRIMARY KEY")
    else if Includes(lowerName, "email") then Some("VARCHAR(255) UNIQUE")
    else if Includes(lowerName, "phone") then Some("VARCHAR(50)")
    else if Includes(lowerName, "date") || Includes(lowerName, "createdat") || Includes(lowerName, "updatedat") then Some("DATETIME")
    else if Includes(lowerName, "age") then Some("INT")
    else if Includes(lowerName, "country") || Includes(lowerName, "city") || Includes(lowerName, "state") then Some("VARCHAR(100)")
    else None
  }

  /** The width of the default `VARCHAR`: twice a string's length, and
      never below 255. */
  function VarcharWidth(v: Option<Cell>): (w: nat)
    ensures w >= 255
    ensures v.Some? && v.value.Str? ==> w >= 2 * |v.value.s| && (w == 255 || w == 2 * |v.value.s|)
    ensures !(v.Some? && v.value.Str?) ==> w == 255
  {
    if v.Some? && v.value.Str? then Max(2 * |v.value.s|, 255) else 255
  }

  /** The type the value decides when the name does not; `VARCHAR(36)`
      only for a UUID string. */
  function ValueType(v: Option<Cell>): (r: string)
    ensures r != "INT PRIMARY KEY"
    ensures r == "VARCHAR(36)" <==> v.Some? && v.value.Str? && IsUuid(v.value.s)
  {
    DecimalWide(VarcharWidth(v));
    if v.Some? && v.value.Int? then "INT"
    else if v.Some? && v.value.Frac? then "DECIMAL(10, 2)"
    else if v.Some? && v.value.Flag? then "BOOLEAN"
    else if v.Some? && v.value.When? then "DATETIME"
    else if v.Some? && v.value.Str? && IsUuid(v.value.s) then "VARCHAR(36)"
    else
      var r := "VARCHAR(" + NatToDecimal(VarcharWidth(v)) + ")";
      assert r[0] == 'V' && |r| >= 12;
      r
  }

  lemma DecimalWide(n: nat)
    requires n >= 100
    ensures |NatToDecimal(n)| >= 3
  {
    var q := n / 10;
    assert NatToDecimal(n) == NatToDecimal(q) + [DigitChar(n % 10)];
  }

  /** `inferSQLDataType`: an `id` anywhere in the lower-cased name makes a
      primary key whatever the value; `VARCHAR(36)` is the type of exactly
      the UUID strings under names that decide nothing. */
  function InferSqlDataType(v: Option<Cell>, columnName: string): (r: string)
    ensures r == "INT PRIMARY KEY" <==> Includes(Lower(columnName), "id")
    ensures r == "VARCHAR(36)" <==> NameType(Lower(columnName)).None? && v.Some? && v.value.Str? && IsUuid(v.value.s)
  {
    var named := NameType(Lower(columnName));
    if named.Some? then named.value else ValueType(v)
  }

  /** Once the name decides, the value plays no part. */
  lemma NameDecides(v1: Option<Cell>, v2: Option<Cell>, columnName: string)
    requires NameType(Lower(columnName)).Some?
    ensures InferSqlDataType(v1, columnName) == InferSqlDataType(v2, columnName)
  {
  }

  /** `s.slice(0, n)`. */
  function Take(s: string, n: nat): string {
    if |s| <= n then s else s[..n]
  }

  /** `s.replace(from, to)` with a one-character pattern: the first
      occurrence only. */
  function ReplaceFirst(s: string, from: char, to: char): (r: string)
    ensures |r| == |s|
    ensures from in s ==> to in r
    ensures from !in s ==> r == s
  {
    if |s| == 0 then s
    else if s[0] == from then [to] + s[1..]
    else [s[0]] + ReplaceFirst(s[1..], from, to)
  }

  /** `escapeSQLValue`. */
  function EscapeSqlValue(v: Option<Cell>): (r: string)
    ensures v.None? || v.value.Null? ==> r == "NULL"
    ensures v.Some? && v.value.Flag? ==> r == (if v.value.b then "1" else "0")
    ensures v.Some? && v.value.Int? ==> r == IntToDecimal(v.value.n)
    ensures v.Some? && v.value.Str? ==> r == Quote(v.value.s)
    ensures v.Some? && v.value.When? ==> |r| == |Take(v.value.iso, 19)| + 2 && r[0] == '\'' && r[|r| - 1] == '\''
  {
    if v.None? then "NULL"
    else
      match v.value
      case Null => "NULL"
      case Int(n) => IntToDecimal(n)
      case Frac(t) => t
      case Flag(b) => if b then "1" else "0"
      case When(iso, _) => "'" + ReplaceFirst(Take(iso, 19), 'T', ' ') + "'"
      case Str(s) => Quote(s)
      case Object(_, shown) => Quote(shown)
  }

  function ColumnDef(sample: Obj<Cell>, columns: seq<string>, idx: nat): string
    requires idx < |columns|
  {
    "    " + columns[idx] + " " + InferSqlDataType(ObjGet(sample, columns[idx]), columns[idx])
    + (if idx < |columns| - 1 then "," else "")
  }

  function ColumnDefs(sample: Obj<Cell>, columns: seq<string>): (r: seq<string>)
    ensures |r| == |columns|
  {
    seq(|columns|, idx requires 0 <= idx < |columns| => ColumnDef(sample, columns, idx))
  }

  /** The `-- Records:` line: it shows the number of columns. */
  function RecordsLine(columns: seq<string>): string {
    "-- Records: " + NatToDecimal(|columns|) + "\n\n"
  }

  const SQL_BANNER := "-- DataForge Generated SQL\n"

  /** `generateCreateTable`, given the time as ISO text. */
  function GenerateCreateTable(tableName: string, sample: Obj<Cell>, columns: seq<string>, isoNow: string): string {
    SQL_BANNER + CreateTableBody(tableName, sample, columns, isoNow)
  }

  function CreateTableBody(tableName: string, sample: Obj<Cell>, columns: seq<string>, isoNow: string): string {
    "-- Generated on: " + isoNow + "\n" + RecordsLine(columns)
    + "CREATE TABLE IF NOT EXISTS " + tableName + " (\n" + Join(ColumnDefs(sample, columns), "\n") + "\n);\n"
  }

  function InsertTuple(data: seq<Obj<Cell>>, columns: seq<string>, idx: nat): string
    requires idx < |data|
  {
    var slots := seq(|columns|, k requires 0 <= k < |columns| => EscapeSqlValue(ObjGet(data[idx], columns[k])));
    "(" + Join(slots, ", ") + ")" + (if idx < |data| - 1 then "," else ";")
  }

  function InsertTuples(data: seq<Obj<Cell>>, columns: seq<string>): (r: seq<string>)
    ensures |r| == |data|
  {
    seq(|data|, idx requires 0 <= idx < |data| => InsertTuple(data, columns, idx))
  }

  /** `generateInsertStatements`. */
  function GenerateInsertStatements(tableName: string, data: seq<Obj<Cell>>, columns: seq<string>): string {
    "INSERT INTO " + tableName + " (" + Join(columns, ", ") + ") VALUES\n" + Join(InsertTuples(data, columns), "\n")
  }

  /** `SQLExporter.export`, given the time as ISO text. */
  function SqlExport(data: seq<Obj<Cell>>, tableName: Option<string>, isoNow: string): (r: string)
    ensures r == NO_SQL_DATA <==> |data| == 0
  {
    if |data| == 0 then NO_SQL_DATA
    else
      var body := SqlBody(data, TableName(tableName), isoNow);
      BannerIsData(body);
      SQL_BANNER + body
  }

  /** A script starting with the banner is never the no-data message. */
  lemma BannerIsData(rest: string)
    ensures SQL_BANNER + rest != NO_SQL_DATA
  {
    assert (SQL_BANNER + rest)[3] == SQL_BANNER[3] == 'D' && NO_SQL_DATA[3] == 'N';
  }

  /** Everything after the banner line: the rest of the `CREATE TABLE`
      block, a blank line and the `INSERT` statement. */
  function SqlBody(data: seq<Obj<Cell>>, name: string, isoNow: string): string
    requires |data| > 0
  {
    var columns := data[0].keys;
    CreateTableBody(name, data[0], columns, isoNow) + ("\n\n" + GenerateInsertStatements(name, data, columns))
  }

  /** The header and `CREATE TABLE` part depend on the first record only:
      the `-- Records:` line counts its keys, not the records. */
  lemma HeaderIgnoresRowCount(data1: seq<Obj<Cell>>, data2: seq<Obj<Cell>>, tableName: Option<string>, isoNow: string)
    requires |data1| > 0 && |data2| > 0 && data1[0] == data2[0]
    ensures var create := GenerateCreateTable(TableName(tableName), data1[0], data1[0].keys, isoNow);
      create <= SqlExport(data1, tableName, isoNow) && create <= SqlExport(data2, tableName, isoNow)
  {
    var name, sample := TableName(tableName), data1[0];
    var body := CreateTableBody(name, sample, sample.keys, isoNow);
    PrefixOfConcat(SQL_BANNER, body, "\n\n" + GenerateInsertStatements(name, data1, sample.keys));
    PrefixOfConcat(SQL_BANNER, body, "\n\n" + GenerateInsertStatements(name, data2, sample.keys));
  }

  lemma PrefixOfConcat(a: string, b: string, c: string)
    ensures a + b <= a + (b + c)
  {
    assert (a + (b + c))[..|a + b|] == a + b;
  }

  /** One tuple per record, in order, each ending in `,` except the last,
      which ends in `;`. */
  lemma InsertTerminators(data: seq<Obj<Cell>>, columns: seq<string>, idx: nat)
    requires idx < |data|
    ensures var t := InsertTuples(data, columns)[idx];
      && |t| >= 3 && t[0] == '('
      && (t[|t| - 1] == ';' <==> idx == |data| - 1)
      && (t[|t| - 1] == ',' <==> idx < |data| - 1)
  {
  }

  // ---------------------------------------------------------------------
  // TXT
  // ---------------------------------------------------------------------

  /** `formatValue`: `NULL` for a missing value, the ISO text of a date,
      the JSON of any other object, and `String(...)` of the rest. */
  function FormatValue(v: Option<Cell>): (r: string)
    ensures v.None? || v.value.Null? ==> r == "NULL"
    ensures v.Some? && v.value.When? ==> r == v.value.iso
    ensures v.Some? && v.value.Object? ==> r == v.value.json
    ensures v.Some? && !v.value.Null? && !v.value.When? && !v.value.Object? ==> r == StringOf(v)
  {
    if v.None? then "NULL"
    else
      match v.value
      case Null => "NULL"
      case When(iso, _) => iso
      case Object(json, _) => json
      case _ => StringOf(v)
  }

  /** `padString`: exactly `width` characters, the text cut or followed by
      spaces. */
  function PadString(s: string, width: nat): (r: string)
    ensures |r| == width
    ensures forall i :: 0 <= i < width && i < |s| ==> r[i] == s[i]
    ensures forall i :: |s| <= i < width ==> r[i] == ' '
  {
    if |s| >= width then s[..width] else s + Repeat(' ', width - |s|)
  }

  /** The length of the formatted value of row `i` in `column`. */
  function CellWidth(data: seq<Obj<Cell>>, column: string, i: nat): nat
    requires i < |data|
  {
    |FormatValue(ObjGet(data[i], column))|
  }

  /** The widest of the column name and the first `k` formatted values. */
  function SampleMax(data: seq<Obj<Cell>>, column: string, k: nat): (w: nat)
    requires k <= |data|
  {
    if k == 0 then |column|
    else
      var prev, cur := SampleMax(data, column, k - 1), CellWidth(data, column, k - 1);
      if prev >= cur then prev else cur
  }

  /** The sample maximum bounds the column name and every sampled value,
      and is one of them. */
  lemma {:induction false} SampleMaxBounds(data: seq<Obj<Cell>>, column: string, k: nat)
    requires k <= |data|
    ensures SampleMax(data, column, k) >= |column|
    ensures forall i :: 0 <= i < k ==> CellWidth(data, column, i) <= SampleMax(data, column, k)
    ensures SampleMax(data, column, k) == |column|
         || exists i :: 0 <= i < k && SampleMax(data, column, k) == CellWidth(data, column, i)
  {
    if k > 0 {
      SampleMaxBounds(data, column, k - 1);
    }
  }

  /** The width of one column: the widest of its name and its first 100
      values, at most 50. */
  function ColumnWidth(data: seq<Obj<Cell>>, column: string): (w: nat)
    ensures w <= MAX_WIDTH && w >= Min(|column|, MAX_WIDTH)
    ensures forall i :: 0 <= i < |data| && i < WIDTH_SAMPLE ==> CellWidth(data, column, i) <= w || w == MAX_WIDTH
  {
    SampleMaxBounds(data, column, Min(|data|, WIDTH_SAMPLE));
    Min(SampleMax(data, column, Min(|data|, WIDTH_SAMPLE)), MAX_WIDTH)
  }

  function ColumnWidths(data: seq<Obj<Cell>>, columns: seq<string>): (r: seq<nat>)
    ensures |r| == |columns|
  {
    seq(|columns|, k requires 0 <= k < |columns| => ColumnWidth(data, columns[k]))
  }

  /** `calculateColumnWidths`. */
  method CalculateColumnWidths(data: seq<Obj<Cell>>, columns: seq<string>) returns (widths: seq<nat>)
    ensures widths == ColumnWidths(data, columns)
  {
    widths := [];
    for k := 0 to |columns|
      invariant widths == ColumnWidths(data, columns)[..k]
    {
      var maxWidth := SampleWidth(data, columns[k]);
      widths := widths + [Min(maxWidth, MAX_WIDTH)];
      assert widths == ColumnWidths(data, columns)[..k + 1];
    }
  }

  /** The loop over the sample rows of one column. */
  method SampleWidth(data: seq<Obj<Cell>>, col: string) returns (maxWidth: nat)
    ensures maxWidth == SampleMax(data, col, Min(|data|, WIDTH_SAMPLE))
  {
    maxWidth := |col|;
    var sampleSize := Min(|data|, WIDTH_SAMPLE);
    for i := 0 to sampleSize
      invariant maxWidth == SampleMax(data, col, i)
    {
      var width := CellWidth(data, col, i);
      maxWidth := if maxWidth >= width then maxWidth else width;
    }
  }

  /** The cells of one line, each padded to its column's width. */
  function Padded(texts: seq<string>, widths: seq<nat>): (r: seq<string>)
    requires |texts| == |widths|
    ensures |r| == |widths| && forall k :: 0 <= k < |r| ==> |r[k]| == widths[k]
  {
    seq(|texts|, k requires 0 <= k < |texts| => PadString(texts[k], widths[k]))
  }

  function HeaderRow(columns: seq<string>, widths: seq<nat>): string
    requires |widths| == |columns|
  {
    Join(Padded(columns, widths), " | ")
  }

  function DataRow(record: Obj<Cell>, columns: seq<string>, widths: seq<nat>): string
    requires |widths| == |columns|
  {
    Join(Padded(seq(|columns|, k requires 0 <= k < |columns| => FormatValue(ObjGet(record, columns[k]))), widths), " | ")
  }

  /** A dotted line follows row `idx` (from 0) of `n` when it closes a
      group of ten and is not the last row. */
  predicate Separated(idx: nat, n: nat) {
    (idx + 1) % 10 == 0 && idx < n - 1
  }

  function RowBlock(data: seq<Obj<Cell>>, columns: seq<string>, widths: seq<nat>, idx: nat): string
    requires |widths| == |columns| && idx < |data|
  {
    var row := DataRow(data[idx], columns, widths);
    row + "\n" + (if Separated(idx, |data|) then Repeat('·', |row|) + "\n" else "")
  }

  function RowBlocks(data: seq<Obj<Cell>>, columns: seq<string>, widths: seq<nat>): (r: seq<string>)
    requires |widths| == |columns|
    ensures |r| == |data|
  {
    seq(|data|, idx requires 0 <= idx < |data| => RowBlock(data, columns, widths, idx))
  }

  function Banner(localNow: string, n: nat): string {
    Repeat('=', 80) + "\n" + "DataForge Generated Data\n" + "Generated on: " + localNow + "\n"
    + "Total Records: " + NatToDecimal(n) + "\n" + Repeat('=', 80) + "\n\n"
  }

  /** The header line and its dashed underline, unless headers are off. */
  function HeaderBlock(columns: seq<string>, widths: seq<nat>, includeHeaders: Option<bool>): string
    requires |widths| == |columns|
  {
    if includeHeaders == Some(false) then ""
    else
      var h := HeaderRow(columns, widths);
      h + "\n" + Repeat('-', |h|) + "\n"
  }

  function Footer(n: nat): string {
    "\n" + Repeat('=', 80) + "\n" + "End of data (" + NatToDecimal(n) + " records)\n" + Repeat('=', 80) + "\n"
  }

  /** The text `TXTExporter.export` returns, given the time as locale text. */
  function TxtReport(data: seq<Obj<Cell>>, includeHeaders: Option<bool>, localNow: string): (r: string)
    ensures r == NO_TXT_DATA <==> |data| == 0
  {
    if |data| == 0 then NO_TXT_DATA
    else
      var columns := data[0].keys;
      var widths := ColumnWidths(data, columns);
      var r := Banner(localNow, |data|) + HeaderBlock(columns, widths, includeHeaders)
               + Concat(RowBlocks(data, columns, widths)) + Footer(|data|);
      assert r[0] == '=';
      r
  }

  /** `TXTExporter.export`. */
  method TxtExport(data: seq<Obj<Cell>>, includeHeaders: Option<bool>, localNow: string) returns (text: string)
    ensures text == TxtReport(data, includeHeaders, localNow)
  {
    if |data| == 0 {
      return NO_TXT_DATA;
    }
    var columns := data[0].keys;
    text := Banner(localNow, |data|);
    var widths := CalculateColumnWidths(data, columns);
    if includeHeaders != Some(false) {
      var headerRow := HeaderRow(columns, widths);
      text := text + (headerRow + "\n" + Repeat('-', |headerRow|) + "\n");
    }
    text := AppendRows(text, data, columns, widths);
    text := text + Footer(|data|);
  }

  /** The row loop: each row, and a dotted line after every tenth row but
      the last. */
  method AppendRows(start: string, data: seq<Obj<Cell>>, columns: seq<string>, widths: seq<nat>) returns (text: string)
    requires |widths| == |columns|
    ensures text == start + Concat(RowBlocks(data, columns, widths))
  {
    text := start;
    ghost var blocks := RowBlocks(data, columns, widths);
    for rowIndex := 0 to |data|
      invariant text == start + Concat(blocks[..rowIndex])
    {
      var row := DataRow(data[rowIndex], columns, widths);
      var block := row + "\n";
      if (rowIndex + 1) % 10 == 0 && rowIndex < |data| - 1 {
        block := block + Repeat('·', |row|) + "\n";
      }
      assert block == RowBlock(data, columns, widths, rowIndex) == blocks[rowIndex];
      ConcatAppend(start, text, blocks, rowIndex);
      text := text + block;
    }
    assert blocks[..|data|] == blocks;
  }

  // ---------------------------------------------------------------------
  // Properties of the table
  // ---------------------------------------------------------------------

  function Sum(ws: seq<nat>): nat {
    if |ws| == 0 then 0 else Sum(ws[..|ws| - 1]) + ws[|ws| - 1]
  }

  /** The length of a joined line of cells of known widths. */
  lemma {:induction false} JoinWidth(parts: seq<string>, sep: string, widths: seq<nat>)
    requires |parts| == |widths| >= 1
    requires forall k :: 0 <= k < |parts| ==> |parts[k]| == widths[k]
    ensures |Join(parts, sep)| == Sum(widths) + |sep| * (|parts| - 1)
    decreases |parts|
  {
    var n := |parts|;
    if n > 1 {
      JoinWidth(parts[..n - 1], sep, widths[..n - 1]);
      assert Sum(widths) == Sum(widths[..n - 1]) + widths[n - 1];
    } else {
      assert Sum(widths) == Sum(widths[..0]) + widths[0];
    }
  }

  /** The table is aligned: the header line and every data line have the
      same length, the widths plus three characters between columns, so
      a dotted separator is as long as the line above it. */
  lemma Aligned(record: Obj<Cell>, columns: seq<string>, widths: seq<nat>)
    requires |widths| == |columns| >= 1
    ensures |DataRow(record, columns, widths)| == |HeaderRow(columns, widths)| == Sum(widths) + 3 * (|columns| - 1)
  {
    var texts := seq(|columns|, k requires 0 <= k < |columns| => FormatValue(ObjGet(record, columns[k])));
    JoinWidth(Padded(texts, widths), " | ", widths);
    JoinWidth(Padded(columns, widths), " | ", widths);
  }

  /** How many of the first `k` rows of `n` are followed by a dotted line. */
  function SeparatorsBefore(k: nat, n: nat): nat {
    if k == 0 then 0 else SeparatorsBefore(k - 1, n) + (if Separated(k - 1, n) then 1 else 0)
  }

  lemma {:induction false} SeparatorsUpTo(k: nat, n: nat)
    requires k < n
    ensures SeparatorsBefore(k, n) == k / 10
  {
    if k > 0 {
      SeparatorsUpTo(k - 1, n);
    }
  }

  /** `n` rows carry `(n - 1) / 10` dotted lines, and none after the last
      row. */
  lemma SeparatorCount(n: nat)
    requires n >= 1
    ensures SeparatorsBefore(n, n) == (n - 1) / 10
    ensures !Separated(n - 1, n)
  {
    SeparatorsUpTo(n - 1, n);
  }

  // ---------------------------------------------------------------------
  // Preview
  // ---------------------------------------------------------------------

  datatype ExportFormat = Sql | Csv | Txt | Pdf | Unknown(name: string)

  /** `data.slice(0, maxRows)`: a negative end counts from the back. */
  function Slice(data: seq<Obj<Cell>>, maxRows: int): (r: seq<Obj<Cell>>)
    ensures r <= data
    ensures maxRows >= 0 ==> |r| == Min(maxRows, |data|)
    ensures maxRows < 0 ==> |r| == Max(|data| + maxRows, 0)
  {
    var end := if maxRows >= 0 then Min(maxRows, |data|) else Max(|data| + maxRows, 0);
    data[..end]
  }

  /** `Exporter.getPreview`: the SQL or TXT export of the leading rows with
      default options, the CSV export of them (empty for no rows, otherwise
      the text the unparser gives), or a note. */
  function GetPreview(data: seq<Obj<Cell>>, format: ExportFormat, isoNow: string, localNow: string,
                      unparse: seq<Obj<Cell>> -> string, maxRows: int := 10): (r: string)
    ensures format.Sql? ==> r == SqlExport(Slice(data, maxRows), None, isoNow)
    ensures format.Txt? ==> r == TxtReport(Slice(data, maxRows), None, localNow)
    ensures format.Pdf? ==> r == "PDF export preview not available. " + NatToDecimal(|data|) + " records will be exported."
    ensures format.Unknown? ==> r == "Preview not available"
    ensures format.Csv? && |Slice(data, maxRows)| == 0 ==> r == ""
    ensures format.Csv? && |Slice(data, maxRows)| > 0 ==> r == unparse(Slice(data, maxRows))
    ensures format.Csv? && (|data| == 0 || maxRows == 0) ==> r == ""
  {
    var preview := Slice(data, maxRows);
    match format
    case Sql => SqlExport(preview, None, isoNow)
    case Csv => if |preview| == 0 then "" else unparse(preview)
    case Txt => TxtReport(preview, None, localNow)
    case Pdf => "PDF export preview not available. " + NatToDecimal(|data|) + " records will be exported."
    case Unknown(_) => "Preview not available"
  }

  /** Without a row limit, the preview shows at most the first ten records. */
  lemma DefaultPreviewRows(data: seq<Obj<Cell>>, isoNow: string, localNow: string, unparse: seq<Obj<Cell>> -> string)
    ensures GetPreview(data, Sql, isoNow, localNow, unparse) == SqlExport(data[..Min(10, |data|)], None, isoNow)
    ensures GetPreview(data, Txt, isoNow, localNow, unparse) == TxtReport(data[..Min(10, |data|)], None, localNow)
  {
    assert Slice(data, 10) == data[..Min(10, |data|)];
  }

  /** Data no longer than the row limit previews as its full export. */
  lemma PreviewOfShortData(data: seq<Obj<Cell>>, maxRows: int, isoNow: string, localNow: string,
                           unparse: seq<Obj<Cell>> -> string)
    requires 0 <= |data| <= maxRows
    ensures GetPreview(data, Sql, isoNow, localNow, unparse, maxRows) == SqlExport(data, None, isoNow)
    ensures GetPreview(data, Txt, isoNow, localNow, unparse, maxRows) == TxtReport(data, None, localNow)
  {
    assert Slice(data, maxRows) == data;
  }
}
