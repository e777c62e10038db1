/** The Particulars x Domain table. The first DataFrame column, "Particulars", is each
    row's `name`; `columns` are the columns after it, in order. */
module Matrix {
  import opened Cells

  datatype Row = Row(name: string, cells: seq<Cell>)

  datatype Table = Table(columns: seq<string>, rows: seq<Row>)

  /** Every row has one cell per column, as in a DataFrame. */
  predicate Rectangular(t: Table) {
    forall i :: 0 <= i < |t.rows| ==> |t.rows[i].cells| == |t.columns|
  }

  /** `list.index`: the first position of x. */
  function IndexOf(xs: seq<string>, x: string): (i: nat)
    requires x in xs
    ensures i < |xs| && xs[i] == x
    ensures forall k :: 0 <= k < i ==> xs[k] != x
  {
    if xs[0] == x then 0 else 1 + IndexOf(xs[1..], x)
  }

  function InsertAt<T>(s: seq<T>, k: nat, x: T): (r: seq<T>)
    requires k <= |s|
    ensures |r| == |s| + 1 && r[k] == x
  {
    s[..k] + [x] + s[k..]
  }

  function RemoveAt<T>(s: seq<T>, k: nat): (r: seq<T>)
    requires k < |s|
    ensures |r| == |s| - 1
  {
    s[..k] + s[k + 1..]
  }

  lemma {:induction false} RemoveInserted<T>(s: seq<T>, k: nat, x: T)
    requires k <= |s|
    ensures RemoveAt(InsertAt(s, k, x), k) == s
  {
    var r := InsertAt(s, k, x);
    assert r[..k] == s[..k] && r[k + 1..] == s[k..];
    assert s[..k] + s[k..] == s;
  }

  /** The row-wise sum of `parse_num` over the given cells. */
  function SumParsed(cells: seq<Cell>): int {
    if cells == [] then 0 else SumParsed(cells[..|cells| - 1]) + ParseNum(cells[|cells| - 1])
  }

  /** Where `insert_total_column` puts "Total": right after "Other Services". */
  function TotalPosition(t: Table): nat
    requires "Other Services" in t.columns
  {
    IndexOf(t.columns, "Other Services") + 1
  }

  /** Whether `insert_total_column` changes the table. */
  predicate AddsTotal(t: Table) {
    "Other Services" in t.columns && "Total" !in t.columns
  }

  /** `insert_total_column`: with "Other Services" present and no "Total" yet, a Total
      column holding each row's `parse_num` sum goes right after "Other Services";
      otherwise the table comes back as it is. */
  function WithTotal(t: Table): (r: Table)
    requires Rectangular(t)
    ensures Rectangular(r) && |r.rows| == |t.rows|
    ensures forall i :: 0 <= i < |r.rows| ==> r.rows[i].name == t.rows[i].name
  {
    if AddsTotal(t) then
      var k := TotalPosition(t);
      Table(InsertAt(t.columns, k, "Total"),
            seq(|t.rows|, i requires 0 <= i < |t.rows| => TotalledRow(t.rows[i], k)))
    else
      t
  }

  /** One row with its `parse_num` sum inserted at position k. */
  function TotalledRow(row: Row, k: nat): Row
    requires k <= |row.cells|
  {
    Row(row.name, InsertAt(row.cells, k, Num(SumParsed(row.cells) as real)))
  }

  /** When it adds the column: "Total" follows "Other Services", each row's Total is the
      `parse_num` sum of its other cells, and deleting the new column gives back the
      original columns and every original cell. */
  lemma {:induction false} TotalColumnPlacement(t: Table)
    requires Rectangular(t) && AddsTotal(t)
    ensures var r := WithTotal(t); var k := TotalPosition(t);
      && |r.columns| == |t.columns| + 1
      && r.columns[k - 1] == "Other Services" && r.columns[k] == "Total"
      && RemoveAt(r.columns, k) == t.columns
      && forall i :: 0 <= i < |r.rows| ==>
           && r.rows[i].cells[k] == Num(SumParsed(t.rows[i].cells) as real)
           && RemoveAt(r.rows[i].cells, k) == t.rows[i].cells
  {
    var r := WithTotal(t);
    var k := TotalPosition(t);
    RemoveInserted(t.columns, k, "Total");
    forall i | 0 <= i < |r.rows|
      ensures RemoveAt(r.rows[i].cells, k) == t.rows[i].cells
    {
      RemoveInserted(t.rows[i].cells, k, Num(SumParsed(t.rows[i].cells) as real));
    }
  }

  /** The column names `insert_total_column` leaves: "Total" right after "Other Services"
      when there is one and no "Total" yet, otherwise the names as they are. */
  function TotalledColumns(cols: seq<string>): (r: seq<string>)
    ensures "Total" in r <==> "Total" in cols || "Other Services" in cols
  {
    if "Other Services" in cols && "Total" !in cols
    then InsertAt(cols, IndexOf(cols, "Other Services") + 1, "Total")
    else cols
  }

  lemma WithTotalColumns(t: Table)
    requires Rectangular(t)
    ensures WithTotal(t).columns == TotalledColumns(t.columns)
  {
  }

  /** Without "Other Services", or with "Total" already there, nothing changes. */
  lemma WithTotalUnchanged(t: Table)
    requires Rectangular(t) && !AddsTotal(t)
    ensures WithTotal(t) == t
  {
  }

  /** Applying `insert_total_column` twice equals applying it once. */
  lemma {:induction false} WithTotalIdempotent(t: Table)
    requires Rectangular(t)
    ensures WithTotal(WithTotal(t)) == WithTotal(t)
  {
    if AddsTotal(t) {
      TotalColumnPlacement(t);
      assert "Total" in WithTotal(t).columns;
    }
  }

  /** Every cell of `WithTotal(t)` is either the new Total of its row or the cell of the
      original table under the same column name. */
  lemma {:induction false} WithTotalCell(t: Table, i: nat, j: nat)
    requires Rectangular(t) && i < |t.rows| && j < |WithTotal(t).columns|
    ensures var r := WithTotal(t);
      if AddsTotal(t) && j == TotalPosition(t) then
        r.columns[j] == "Total" && r.rows[i].cells[j] == Num(SumParsed(t.rows[i].cells) as real)
      else
        var src := if AddsTotal(t) && j > TotalPosition(t) then j - 1 else j;
        src < |t.columns| && r.columns[j] == t.columns[src] && r.rows[i].cells[j] == t.rows[i].cells[src]
  {
    if AddsTotal(t) {
      var k := TotalPosition(t);
      var total := Num(SumParsed(t.rows[i].cells) as real);
      WithTotalRow(t, i);
      InsertAtIndex(t.columns, k, "Total", j);
      InsertAtIndex(t.rows[i].cells, k, total, j);
    }
  }

  /** The element at position j after inserting x at position k. */
  lemma InsertAtIndex<T>(s: seq<T>, k: nat, x: T, j: nat)
    requires k <= |s| && j <= |s|
    ensures InsertAt(s, k, x)[j] == if j < k then s[j] else if j == k then x else s[j - 1]
  {
  }

  /** The mutable DataFrame `insert_total_column` updates with `df.insert`. */
  class Frame {
    var columns: seq<string>
    var rows: seq<Row>

    function Value(): Table
      reads this
    {
      Table(columns, rows)
    }

    constructor (t: Table)
      ensures Value() == t
    {
      columns := t.columns;
      rows := t.rows;
    }

    /** `insert_total_column(df)`: updates the frame in place. */
    method InsertTotalColumn()
      requires Rectangular(Value())
      modifies this
      ensures Value() == WithTotal(old(Value()))
    {
      ghost var t := Value();
      if "Other Services" in columns {
        var idx := IndexOf(columns, "Other Services");
        if "Total" in columns {
          WithTotalUnchanged(t);
          return;
        }
        // the row-wise sums, then `df.insert(idx + 1, 'Total', total_vals)`
        var after := RowsWithTotals(rows, idx + 1);
        WithTotalFromRows(t, after);
        columns := InsertAt(columns, idx + 1, "Total");
        rows := after;
      } else {
        WithTotalUnchanged(t);
      }
    }
  }

  /** Each row with its `parse_num` sum inserted at position k, one row at a time. */
  method RowsWithTotals(before: seq<Row>, k: nat) returns (after: seq<Row>)
    requires forall j :: 0 <= j < |before| ==> k <= |before[j].cells|
    ensures |after| == |before| && forall j :: 0 <= j < |before| ==> after[j] == TotalledRow(before[j], k)
  {
    after := [];
    var i := 0;
    while i < |before|
      invariant 0 <= i <= |before| && |after| == i
      invariant forall j :: 0 <= j < i ==> after[j] == TotalledRow(before[j], k)
    {
      var total := SumParsed(before[i].cells);
      after := after + [Row(before[i].name, InsertAt(before[i].cells, k, Num(total as real)))];
      i := i + 1;
    }
  }

  /** The table `WithTotal` builds, given its rows one by one. */
  lemma WithTotalFromRows(t: Table, after: seq<Row>)
    requires Rectangular(t) && AddsTotal(t) && |after| == |t.rows|
    requires forall j :: 0 <= j < |after| ==> after[j] == TotalledRow(t.rows[j], TotalPosition(t))
    ensures WithTotal(t) == Table(InsertAt(t.columns, TotalPosition(t), "Total"), after)
  {
  }

  // ---- lookup by name --------------------------------------------------------------

  /** `tbl[tbl['Particulars'] == name].index[0]`: the first row with the name. */
  function FindRow(rows: seq<Row>, name: string): (r: Option<nat>)
    ensures r.Some? ==> r.value < |rows| && rows[r.value].name == name
    ensures r.Some? ==> forall k :: 0 <= k < r.value ==> rows[k].name != name
    ensures r.None? ==> forall k :: 0 <= k < |rows| ==> rows[k].name != name
  {
    if rows == [] then None
    else if rows[0].name == name then Some(0)
    else match FindRow(rows[1..], name)
      case Some(k) => Some(k + 1)
      case None => None
  }

  /** `tbl[tbl['Particulars'] != name]`: the rows with any other name, in order. */
  function WithoutLabel(rows: seq<Row>, name: string): (r: seq<Row>)
    ensures forall x :: x in r <==> x in rows && x.name != name
    ensures (forall k :: 0 <= k < |rows| ==> rows[k].name != name) ==> r == rows
  {
    if rows == [] then []
    else (if rows[0].name == name then [] else [rows[0]]) + WithoutLabel(rows[1..], name)
  }

  /** Each row of another name is kept as often as it occurs. */
  lemma {:induction false} WithoutLabelCounts(rows: seq<Row>, name: string)
    ensures forall x :: multiset(WithoutLabel(rows, name))[x] == if x.name != name then multiset(rows)[x] else 0
  {
    if rows != [] {
      assert rows == [rows[0]] + rows[1..];
      WithoutLabelCounts(rows[1..], name);
    }
  }

  /** Dropping the rows of one name works piece by piece, so the rows kept stay in order. */
  lemma {:induction false} WithoutLabelAppend(a: seq<Row>, b: seq<Row>, name: string)
    ensures WithoutLabel(a + b, name) == WithoutLabel(a, name) + WithoutLabel(b, name)
  {
    if a == [] {
      assert a + b == b;
    } else {
      var head: seq<Row> := if a[0].name == name then [] else [a[0]];
      assert (a + b)[0] == a[0] && (a + b)[1..] == a[1..] + b;
      assert WithoutLabel(a + b, name) == head + WithoutLabel(a[1..] + b, name);
      WithoutLabelAppend(a[1..], b, name);
      AppendAssociates(head, WithoutLabel(a[1..], name), WithoutLabel(b, name));
    }
  }

  /** The cell of the first row named `name`, in the first column named `column`. */
  function CellAt(t: Table, name: string, column: string): Option<Cell> {
    match FindRow(t.rows, name)
    case None => None
    case Some(i) =>
      if column in t.columns && IndexOf(t.columns, column) < |t.rows[i].cells|
      then Some(t.rows[i].cells[IndexOf(t.columns, column)])
      else None
  }

  /** Where a column name lands once another name is inserted at position k. */
  lemma {:induction false} IndexOfInserted(xs: seq<string>, k: nat, x: string, c: string)
    requires k <= |xs| && c != x
    ensures c in InsertAt(xs, k, x) <==> c in xs
    ensures c in xs ==> var j := IndexOf(xs, c);
      IndexOf(InsertAt(xs, k, x), c) == if j < k then j else j + 1
  {
    var ys := InsertAt(xs, k, x);
    if c in ys {
      var q := IndexOf(ys, c);
      if q < k {
        assert xs[q] == c;
      } else {
        assert xs[q - 1] == ys[q];
      }
    }
    if c in xs {
      var j := IndexOf(xs, c);
      var j' := if j < k then j else j + 1;
      assert ys[j'] == c;
    }
  }

  /** Row i of the table with the Total column. */
  lemma WithTotalRow(t: Table, i: nat)
    requires Rectangular(t) && AddsTotal(t) && i < |t.rows|
    ensures WithTotal(t).rows[i] ==
      Row(t.rows[i].name, InsertAt(t.rows[i].cells, TotalPosition(t), Num(SumParsed(t.rows[i].cells) as real)))
  {
  }

  /** Adding the Total column moves no other cell: every cell is still found under its
      row name and column name. */
  lemma {:induction false} WithTotalKeepsCells(t: Table, name: string, column: string)
    requires Rectangular(t) && column != "Total"
    ensures CellAt(WithTotal(t), name, column) == CellAt(t, name, column)
  {
    if AddsTotal(t) {
      var r := WithTotal(t);
      var k := TotalPosition(t);
      assert r.columns == InsertAt(t.columns, k, "Total");
      IndexOfInserted(t.columns, k, "Total", column);
      FindRowSameLabels(t.rows, r.rows, name);
      var f := FindRow(t.rows, name);
      if f.Some? && column in t.columns {
        var i := f.value;
        var j := IndexOf(t.columns, column);
        var j' := IndexOf(r.columns, column);
        assert j' == if j < k then j else j + 1;
        var total := Num(SumParsed(t.rows[i].cells) as real);
        assert r.rows[i].cells == InsertAt(t.rows[i].cells, k, total) by {
          WithTotalRow(t, i);
        }
        InsertedCell(t.rows[i].cells, k, total, j, j');
        CellAtFound(t, name, column, i);
        CellAtFound(r, name, column, i);
      }
    }
  }

  /** Where a cell lands once x is inserted at position k. */
  lemma InsertedCell<T>(cells: seq<T>, k: nat, x: T, j: nat, j': nat)
    requires k <= |cells| && j < |cells| && j' == if j < k then j else j + 1
    ensures j' < |InsertAt(cells, k, x)| && InsertAt(cells, k, x)[j'] == cells[j]
  {
  }

  lemma CellAtFound(t: Table, name: string, column: string, i: nat)
    requires FindRow(t.rows, name) == Some(i) && column in t.columns
    requires IndexOf(t.columns, column) < |t.rows[i].cells|
    ensures CellAt(t, name, column) == Some(t.rows[i].cells[IndexOf(t.columns, column)])
  {
  }

  lemma {:induction false} FindRowSameLabels(a: seq<Row>, b: seq<Row>, name: string)
    requires |a| == |b| && forall i :: 0 <= i < |a| ==> a[i].name == b[i].name
    ensures FindRow(a, name) == FindRow(b, name)
    decreases |a|
  {
    if a != [] {
      FindRowSameLabels(a[1..], b[1..], name);
    }
  }
}
