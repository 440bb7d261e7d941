/**
 * `get_table_values` (`core_algorithm/utils/response_plot.py`): the bar
 * values of one truth-table column, each labelled by the input pattern of
 * its row.
 */
module ResponsePlot {
  import opened Wrappers
  import opened Dict
  import opened Json

  /** The column index: the last header equal to the column name, if any. */
  function ColIndex(header: seq<Value>, colName: string): Option<nat>
  {
    if |header| == 0 then None
    else if header[|header| - 1] == Str(colName) then Some(|header| - 1)
    else ColIndex(header[..|header| - 1], colName)
  }

  /** What one input cell adds to a label: a dash for 0, a plus for 1, nothing otherwise. */
  function Mark(v: Value): string
  {
    if PyEq(v, Int(0)) then "\U{2014} "
    else if PyEq(v, Int(1)) then "+ "
    else ""
  }

  function Marks(vs: seq<Value>): string
  {
    if |vs| == 0 then "" else Marks(vs[..|vs| - 1]) + Mark(vs[|vs| - 1])
  }

  /**
   * What a data row stores: its label and its cell in the column, when the
   * column lies past the inputs and inside the row; nothing otherwise.
   */
  function RowEntry(row: seq<Value>, inputCnt: nat, colIndex: Option<nat>): Option<(string, Value)>
  {
    match colIndex
    case None => None
    case Some(c) => if inputCnt <= c < |row| then Some((" " + Marks(row[..inputCnt]), row[c])) else None
  }

  /** The entries of the data rows, stored in order, a later label overwriting. */
  function TableValues(rows: seq<seq<Value>>, inputCnt: nat, colIndex: Option<nat>): Dict<string, Value>
  {
    if |rows| == 0 then []
    else
      var prev := TableValues(rows[..|rows| - 1], inputCnt, colIndex);
      match RowEntry(rows[|rows| - 1], inputCnt, colIndex)
      case None => prev
      case Some(e) => Put(prev, e.0, e.1)
  }

  /** `get_table_values(table, col_name, input_cnt)`: IndexError on an empty table. */
  function GetTableValues(table: seq<seq<Value>>, colName: string, inputCnt: nat): Result<Dict<string, Value>>
  {
    if |table| == 0 then Err(IndexError)
    else Ok(TableValues(table[1..], inputCnt, ColIndex(table[0], colName)))
  }

  // ---------------------------------------------------------------------
  // Properties
  // ---------------------------------------------------------------------

  /** The column index is the last header naming the column; there is none exactly when no header does. */
  lemma {:induction false} ColIndexSpec(header: seq<Value>, colName: string)
    ensures ColIndex(header, colName).None? <==> forall i :: 0 <= i < |header| ==> header[i] != Str(colName)
    ensures ColIndex(header, colName).Some? ==>
      var c := ColIndex(header, colName).value;
      && c < |header| && header[c] == Str(colName)
      && forall j :: c < j < |header| ==> header[j] != Str(colName)
  {
    if |header| > 0 && header[|header| - 1] != Str(colName) {
      var init := header[..|header| - 1];
      ColIndexSpec(init, colName);
      assert forall i :: 0 <= i < |init| ==> init[i] == header[i];
    }
  }

  /** The data row stores under label `k`. */
  predicate StoresUnder(row: seq<Value>, inputCnt: nat, colIndex: Option<nat>, k: string)
  {
    RowEntry(row, inputCnt, colIndex).Some? && RowEntry(row, inputCnt, colIndex).value.0 == k
  }

  /** The last data row storing under label `k`, if any. */
  function LastStore(rows: seq<seq<Value>>, inputCnt: nat, colIndex: Option<nat>, k: string): (r: Option<nat>)
    ensures r.None? <==> forall j :: 0 <= j < |rows| ==> !StoresUnder(rows[j], inputCnt, colIndex, k)
    ensures r.Some? ==> r.value < |rows| && StoresUnder(rows[r.value], inputCnt, colIndex, k)
    ensures r.Some? ==> forall j :: r.value < j < |rows| ==> !StoresUnder(rows[j], inputCnt, colIndex, k)
  {
    if |rows| == 0 then None
    else if StoresUnder(rows[|rows| - 1], inputCnt, colIndex, k) then Some(|rows| - 1)
    else
      var init := rows[..|rows| - 1];
      assert forall j :: 0 <= j < |init| ==> init[j] == rows[j];
      LastStore(init, inputCnt, colIndex, k)
  }

  /**
   * The value stored under a label is the column cell of the last data row
   * with that label, and a label no data row has is absent.
   */
  lemma {:induction false} TableValuesGet(rows: seq<seq<Value>>, inputCnt: nat, colIndex: Option<nat>, k: string)
    ensures Get(TableValues(rows, inputCnt, colIndex), k) ==
      match LastStore(rows, inputCnt, colIndex, k)
      case None => None
      case Some(i) => Some(rows[i][colIndex.value])
  {
    if |rows| > 0 {
      var init := rows[..|rows| - 1];
      var e := RowEntry(rows[|rows| - 1], inputCnt, colIndex);
      if e.Some? {
        GetPut(TableValues(init, inputCnt, colIndex), e.value.0, e.value.1, k);
      }
      if !StoresUnder(rows[|rows| - 1], inputCnt, colIndex, k) {
        TableValuesGet(init, inputCnt, colIndex, k);
        var l := LastStore(init, inputCnt, colIndex, k);
        if l.Some? {
          assert init[l.value] == rows[l.value];
        }
      }
    }
  }

  /** With the column missing, or inside the inputs, nothing is stored. */
  lemma {:induction false} NoColumnNoValues(rows: seq<seq<Value>>, inputCnt: nat, colIndex: Option<nat>)
    requires colIndex.None? || colIndex.value < inputCnt
    ensures TableValues(rows, inputCnt, colIndex) == []
  {
    if |rows| > 0 {
      NoColumnNoValues(rows[..|rows| - 1], inputCnt, colIndex);
    }
  }

  /** A row of 0/1 inputs gets one dash or plus per input, each followed by a space. */
  lemma {:induction false} MarksOfBits(vs: seq<Value>)
    requires forall j :: 0 <= j < |vs| ==> vs[j] == Int(0) || vs[j] == Int(1)
    ensures |Marks(vs)| == 2 * |vs|
    ensures forall j :: 0 <= j < |vs| ==>
      Marks(vs)[2 * j] == (if vs[j] == Int(0) then '\U{2014}' else '+') && Marks(vs)[2 * j + 1] == ' '
  {
    if |vs| > 0 {
      var init := vs[..|vs| - 1];
      MarksOfBits(init);
      assert forall j :: 0 <= j < |init| ==> init[j] == vs[j];
    }
  }

  // ---------------------------------------------------------------------
  // The loops
  // ---------------------------------------------------------------------

  /** The header loop, keeping the last index whose header is the column name. */
  method FindColumn(header: seq<Value>, colName: string) returns (colIndex: Option<nat>)
    ensures colIndex == ColIndex(header, colName)
  {
    colIndex := None;
    for index := 0 to |header|
      invariant colIndex == ColIndex(header[..index], colName)
    {
      assert header[..index + 1][..index] == header[..index];
      if header[index] == Str(colName) {
        colIndex := Some(index);
      }
    }
    assert header[..|header|] == header;
  }

  function Min(a: int, b: int): int
  {
    if a <= b then a else b
  }

  /** The loop over one row's cells: grow the label over the inputs, stop at the column. */
  method ReadRow(row: seq<Value>, inputCnt: nat, colIndex: Option<nat>) returns (entry: Option<(string, Value)>)
    ensures entry == RowEntry(row, inputCnt, colIndex)
  {
    var barLabel := " ";
    for i := 0 to |row|
      invariant barLabel == " " + Marks(row[..Min(i, inputCnt)])
      invariant forall j :: inputCnt <= j < i ==> colIndex != Some(j)
    {
      if i < inputCnt {
        assert row[..i + 1][..i] == row[..i];
        barLabel := barLabel + Mark(row[i]);
      } else if colIndex == Some(i) {
        return Some((barLabel, row[i]));
      }
    }
    return None;
  }

  /** `get_table_values`, loop by loop. */
  method GetTableValuesLoop(table: seq<seq<Value>>, colName: string, inputCnt: nat) returns (r: Result<Dict<string, Value>>)
    ensures r == GetTableValues(table, colName, inputCnt)
  {
    if |table| == 0 {
      return Err(IndexError);
    }
    var colIndex := FindColumn(table[0], colName);
    var rows := table[1..];
    var barValues: Dict<string, Value> := [];
    for n := 0 to |rows|
      invariant barValues == TableValues(rows[..n], inputCnt, colIndex)
    {
      assert rows[..n + 1][..n] == rows[..n];
      var entry := ReadRow(rows[n], inputCnt, colIndex);
      if entry.Some? {
        barValues := Put(barValues, entry.value.0, entry.value.1);
      }
    }
    assert rows[..|rows|] == rows;
    return Ok(barValues);
  }
}
