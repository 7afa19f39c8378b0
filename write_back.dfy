/** The write-back of the two lookup tables into worksheet tabs: each table is flattened into one
    list (header first, then each row's cells), an A1 range naming exactly that many cells is built,
    and the range's cells are filled from the list in order. */
module WriteBack {
  import opened Wrappers
  import opened Text

  /** A value `read_sql` returns: null, a 64-bit int, a float, or anything else (kept as its `str`). */
  datatype DbValue = Null | IntValue(i: int) | FloatValue(x: real) | OtherValue(text: string)

  /** A value assigned to a worksheet cell. */
  datatype CellValue = TextCell(s: string) | Int(i: int) | Float(x: real)

  /** The per-cell conversion of the flattening comprehension: null becomes "", numbers stay numbers,
      anything else becomes its string. */
  function ToCell(v: DbValue): CellValue {
    match v
    case Null => TextCell("")
    case IntValue(i) => Int(i)
    case FloatValue(x) => Float(x)
    case OtherValue(t) => TextCell(t)
  }

  /** The columns of the local radio table, written to "Link to Market Info - Local Radio". */
  const LOCAL_RADIO_COLUMNS: seq<string> := ["client_name", "combined", "date_added", "pseudo_vendor_id"]

  /** The columns of the unique shows table, written to "Link to Market Info". */
  const MARKET_INFO_COLUMNS: seq<string> := ["vendor_id", "station_name", "market_name", "Media_Type",
    "Adjusted_Market_Name", "Adjusted_Show_Name", "Genre_itunes", "Genre_ARM", "Subgenre_iTunes",
    "Subgenre_ARM", "Itunes_URL", "Unique_show_flag", "Master_vendor_id"]

  /** Every row has `width` values, one per column of the query. */
  predicate Rectangular(rows: seq<seq<DbValue>>, width: nat) {
    forall i :: 0 <= i < |rows| ==> |rows[i]| == width
  }

  function HeaderCells(header: seq<string>): seq<CellValue> {
    seq(|header|, j requires 0 <= j < |header| => TextCell(header[j]))
  }

  function RowCells(row: seq<DbValue>): seq<CellValue> {
    seq(|row|, j requires 0 <= j < |row| => ToCell(row[j]))
  }

  /** The flattened table: the header, then each row's converted cells, row after row. */
  function Flattened(header: seq<string>, rows: seq<seq<DbValue>>): seq<CellValue>
  {
    if rows == [] then HeaderCells(header)
    else Flattened(header, rows[..|rows| - 1]) + RowCells(rows[|rows| - 1])
  }

  /** The flattened table has `width * (n + 1)` cells. */
  lemma {:induction false} FlattenedLength(header: seq<string>, rows: seq<seq<DbValue>>)
    requires Rectangular(rows, |header|)
    ensures |Flattened(header, rows)| == |header| * (|rows| + 1)
  {
    if rows != [] {
      var n := |rows| - 1;
      assert Rectangular(rows[..n], |header|) by {
        forall i | 0 <= i < n ensures |rows[..n][i]| == |header| { assert rows[..n][i] == rows[i]; }
      }
      FlattenedLength(header, rows[..n]);
      assert |header| * (n + 1) + |header| == |header| * (|rows| + 1);
    }
  }

  /** Flattening more rows only appends: the flattened prefix of the rows is a prefix. */
  lemma {:induction false} FlattenedPrefix(header: seq<string>, rows: seq<seq<DbValue>>, m: nat)
    requires m <= |rows|
    ensures |Flattened(header, rows[..m])| <= |Flattened(header, rows)|
    ensures Flattened(header, rows)[..|Flattened(header, rows[..m])|] == Flattened(header, rows[..m])
    decreases |rows|
  {
    if m < |rows| {
      var n := |rows| - 1;
      assert rows[..n][..m] == rows[..m];
      FlattenedPrefix(header, rows[..n], m);
    } else {
      assert rows[..m] == rows;
    }
  }

  /** The header sits at positions `0 .. width - 1`. */
  lemma FlattenedHeader(header: seq<string>, rows: seq<seq<DbValue>>, j: nat)
    requires j < |header|
    ensures j < |Flattened(header, rows)| && Flattened(header, rows)[j] == TextCell(header[j])
  {
    FlattenedPrefix(header, rows, 0);
    assert rows[..0] == [];
  }

  /** Every prefix of a rectangular table is rectangular. */
  lemma RectangularPrefix(rows: seq<seq<DbValue>>, width: nat, m: nat)
    requires Rectangular(rows, width) && m <= |rows|
    ensures Rectangular(rows[..m], width)
  {
    forall k | 0 <= k < m ensures |rows[..m][k]| == width { assert rows[..m][k] == rows[k]; }
  }

  /** The cells of the last row follow everything before them. */
  lemma FlattenedLastRow(header: seq<string>, rows: seq<seq<DbValue>>, j: nat)
    requires Rectangular(rows, |header|) && rows != [] && j < |header|
    ensures |header| * |rows| + j < |Flattened(header, rows)|
    ensures Flattened(header, rows)[|header| * |rows| + j] == ToCell(rows[|rows| - 1][j])
  {
    var n := |rows| - 1;
    RectangularPrefix(rows, |header|, n);
    FlattenedLength(header, rows[..n]);
    var before := Flattened(header, rows[..n]);
    assert |before| == |header| * |rows|;
    assert Flattened(header, rows) == before + RowCells(rows[n]);
  }

  /** The cell of row `i`, column `j` sits at position `width * (i + 1) + j`. */
  lemma FlattenedCell(header: seq<string>, rows: seq<seq<DbValue>>, i: nat, j: nat)
    requires Rectangular(rows, |header|)
    requires i < |rows| && j < |header|
    ensures |header| * (i + 1) + j < |Flattened(header, rows)|
    ensures Flattened(header, rows)[|header| * (i + 1) + j] == ToCell(rows[i][j])
  {
    var pre := rows[..i + 1];
    RectangularPrefix(rows, |header|, i + 1);
    FlattenedLastRow(header, pre, j);
    FlattenedPrefix(header, rows, i + 1);
    assert pre[i] == rows[i];
  }

  /** The flattening loop: `df_as_list` starts as the header and each row's converted cells are
      appended with `+=`. */
  method FlattenTable(header: seq<string>, rows: seq<seq<DbValue>>) returns (list: seq<CellValue>)
    ensures list == Flattened(header, rows)
  {
    list := HeaderCells(header);
    for r := 0 to |rows|
      invariant list == Flattened(header, rows[..r])
    {
      var strList := RowCells(rows[r]);
      list := list + strList;
      assert rows[..r + 1][..r] == rows[..r];
    }
    assert rows[..|rows|] == rows;
  }

  /** The column letter of the `n`-th column (1-based). */
  function ColumnLetter(n: nat): char
    requires 1 <= n <= 26
  {
    (('A' as int) + n - 1) as char
  }

  /** `"A1:" + <last column> + str(rows + 1)`: the header row and one row per table row. */
  function RangeString(width: nat, rows: nat): string
    requires 1 <= width <= 26
  {
    "A1:" + [ColumnLetter(width)] + NatToString(rows + 1)
  }

  /** The two range strings of the source: "A1:D" and "A1:M" followed by `str(n + 1)`. */
  lemma RangeStringsOfTables(n: nat)
    ensures |LOCAL_RADIO_COLUMNS| == 4 && RangeString(4, n) == "A1:D" + NatToString(n + 1)
    ensures |MARKET_INFO_COLUMNS| == 13 && RangeString(13, n) == "A1:M" + NatToString(n + 1)
  {
  }

  /** A range `A1:<letter><digits>` as `sheet.range` reads it: its width and its height; `None` for a
      string of any other shape. */
  function ParseRange(s: string): Option<(nat, nat)>
  {
    if |s| >= 5 && s[..3] == "A1:" && 'A' <= s[3] <= 'Z' && IsDigits(s[4..])
    then Some(((s[3] as int) - ('A' as int) + 1, DigitsValue(s[4..])))
    else None
  }

  /** The number of cells of a `width` by `height` range. */
  function CellCount(dims: (nat, nat)): nat {
    dims.0 * dims.1
  }

  /** A built range string names a range `width` columns wide and `rows + 1` rows high. */
  lemma {:induction false} ParseRangeString(width: nat, rows: nat)
    requires 1 <= width <= 26
    ensures ParseRange(RangeString(width, rows)) == Some((width, rows + 1))
  {
    var s := RangeString(width, rows);
    assert s[..3] == "A1:";
    assert s[4..] == NatToString(rows + 1);
    DigitsValueOfNatToString(rows + 1);
  }

  /** The range built for a table names exactly as many cells as the flattened table holds, so the
      fill never runs past the end of the list and uses all of it. */
  lemma WriteBackFits(header: seq<string>, rows: seq<seq<DbValue>>)
    requires 1 <= |header| <= 26 && Rectangular(rows, |header|)
    ensures ParseRange(RangeString(|header|, |rows|)).Some?
    ensures CellCount(ParseRange(RangeString(|header|, |rows|)).value) == |Flattened(header, rows)|
  {
    ParseRangeString(|header|, |rows|);
    FlattenedLength(header, rows);
  }

  /** The fill loop: `cell.value = values[count]` for each cell in order. It stops with an
      `IndexError` (false) at the first cell past the end of `values`, having filled the cells before. */
  method FillRange(cells: array<CellValue>, values: seq<CellValue>) returns (ok: bool)
    modifies cells
    ensures ok <==> cells.Length <= |values|
    ensures ok ==> cells[..] == values[..cells.Length]
    ensures !ok ==> cells[..|values|] == values
    ensures !ok ==> forall k :: |values| <= k < cells.Length ==> cells[k] == old(cells[k])
  {
    var count := 0;
    while count < cells.Length
      invariant 0 <= count <= cells.Length && count <= |values|
      invariant cells[..count] == values[..count]
      invariant forall k :: count <= k < cells.Length ==> cells[k] == old(cells[k])
    {
      if count >= |values| {
        return false;
      }
      cells[count] := values[count];
      count := count + 1;
    }
    ok := true;
  }

  /** A worksheet tab: the cells it holds, row by row. */
  class Worksheet {
    var contents: seq<CellValue>

    constructor (contents: seq<CellValue>)
      ensures this.contents == contents
    {
      this.contents := contents;
    }

    /** `update_local_radio_tab` / `update_non_local_radio_tab`: take the cells of `rangeString`,
        fill them from `values`, then clear the tab and write them. A failure (a malformed range, or
        too few values) is only logged and leaves the tab as it was. */
    method Update(rangeString: string, values: seq<CellValue>) returns (ok: bool)
      modifies this
      ensures ok <==> ParseRange(rangeString).Some? && CellCount(ParseRange(rangeString).value) <= |values|
      ensures contents == if ok then values[..CellCount(ParseRange(rangeString).value)] else old(contents)
    {
      var dims := ParseRange(rangeString);
      if dims.None? {
        return false;
      }
      var cells := new CellValue[dims.value.0 * dims.value.1](_ => TextCell(""));
      ok := FillRange(cells, values);
      if ok {
        contents := cells[..];
      }
    }
  }

  /** The module-level lookup tables, their flattened lists and range strings, rebuilt at the start
      of every import. */
  class LookupTables {
    var localRadioIds: seq<seq<DbValue>>
    var nonLocalRadioIds: seq<seq<DbValue>>
    var dfAsList: seq<CellValue>
    var dfAsList2: seq<CellValue>
    var rangeString: string
    var rangeString2: string

    /** Whenever a table has rows, its list and range string are the ones built from it. */
    ghost predicate Valid()
      reads this
    {
      && (|localRadioIds| > 0 ==>
           Rectangular(localRadioIds, 4)
           && dfAsList == Flattened(LOCAL_RADIO_COLUMNS, localRadioIds)
           && rangeString == RangeString(4, |localRadioIds|))
      && (|nonLocalRadioIds| > 0 ==>
           Rectangular(nonLocalRadioIds, 13)
           && dfAsList2 == Flattened(MARKET_INFO_COLUMNS, nonLocalRadioIds)
           && rangeString2 == RangeString(13, |nonLocalRadioIds|))
    }

    /** The initial values of the globals: empty tables, empty lists and range strings. */
    constructor ()
      ensures Valid()
      ensures localRadioIds == [] && nonLocalRadioIds == [] && dfAsList == [] && dfAsList2 == []
      ensures rangeString == "" && rangeString2 == ""
    {
      localRadioIds, nonLocalRadioIds := [], [];
      dfAsList, dfAsList2 := [], [];
      rangeString, rangeString2 := "", "";
    }

    /** The rebuild at the start of `handler` / `importSheet` from the two query results. */
    method Rebuild(localRows: seq<seq<DbValue>>, marketRows: seq<seq<DbValue>>)
      requires Rectangular(localRows, 4) && Rectangular(marketRows, 13)
      modifies this
      ensures Valid()
      ensures localRadioIds == localRows && nonLocalRadioIds == marketRows
      ensures dfAsList == Flattened(LOCAL_RADIO_COLUMNS, localRows)
      ensures rangeString == RangeString(4, |localRows|)
      ensures dfAsList2 == Flattened(MARKET_INFO_COLUMNS, marketRows)
      ensures rangeString2 == RangeString(13, |marketRows|)
    {
      localRadioIds := localRows;
      dfAsList := FlattenTable(LOCAL_RADIO_COLUMNS, localRows);
      rangeString := RangeString(4, |localRows|);
      nonLocalRadioIds := marketRows;
      dfAsList2 := FlattenTable(MARKET_INFO_COLUMNS, marketRows);
      rangeString2 := RangeString(13, |marketRows|);
    }
  }
}
