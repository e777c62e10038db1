/** What the matrix of one fiscal year guarantees, for every window and every sheet
    contents: when it is produced at all, how its rows are laid out, that Gross Profit and
    Net Profit are the differences they are named after (in the Total column too), where
    Deferred Revenue goes, what the Net Profit % row holds, and how the single-month
    windows relate to the whole year. */
module Properties {
  import opened Cells
  import opened NumberFormat
  import opened FiscalCalendar
  import opened Matrix
  import opened Allocation
  import opened Pipeline

  // ---- lookups by name -----------------------------------------------------------------

  /** The first row carrying a name is the one the lookup returns. */
  lemma {:induction false} FindRowAt(rows: seq<Row>, name: string, i: nat)
    requires i < |rows| && rows[i].name == name
    requires forall k :: 0 <= k < i ==> rows[k].name != name
    ensures FindRow(rows, name) == Some(i)
    decreases i
  {
    if i > 0 {
      FindRowAt(rows[1..], name, i - 1);
    }
  }

  /** A name that occurs is found. */
  lemma {:induction false} FindRowPresent(rows: seq<Row>, r: Row)
    requires r in rows
    ensures FindRow(rows, r.name).Some?
  {
    var k :| 0 <= k < |rows| && rows[k] == r;
    assert rows[k].name == r.name;
  }

  /** Appending rows does not move a row that is already found. */
  lemma {:induction false} FindRowAppend(rows: seq<Row>, more: seq<Row>, name: string)
    requires FindRow(rows, name).Some?
    ensures FindRow(rows + more, name) == FindRow(rows, name)
  {
    var i := FindRow(rows, name).value;
    FindRowAt(rows + more, name, i);
  }

  /** Filtering a name out keeps a prefix in which that name does not occur. */
  lemma {:induction false} WithoutLabelKeepsPrefix(rows: seq<Row>, name: string, m: nat)
    requires m <= |rows| && forall k :: 0 <= k < m ==> rows[k].name != name
    ensures |WithoutLabel(rows, name)| >= m && WithoutLabel(rows, name)[..m] == rows[..m]
    decreases m
  {
    if m > 0 {
      var rest := WithoutLabel(rows[1..], name);
      WithoutLabelKeepsPrefix(rows[1..], name, m - 1);
      assert WithoutLabel(rows, name) == [rows[0]] + rest;
      ConsPrefix(rows[0], rest, m);
      ConsPrefix(rows[0], rows[1..], m);
      assert [rows[0]] + rows[1..] == rows;
    }
  }

  lemma ConsPrefix<T>(x: T, rest: seq<T>, m: nat)
    requires 1 <= m <= |rest| + 1
    ensures ([x] + rest)[..m] == [x] + rest[..m - 1]
  {
  }

  // ---- the rows up to TNS Expenses -----------------------------------------------------

  /** Only a Salary & Incentives row whose width differs from the number of Sales domains
      stops the rows being built. */
  lemma BaseLinesOutcome(fy: FiscalYear, w: Window, sales: SalesSheet, sheets: FiscalSheets)
    requires WellShaped(sales, sheets)
    ensures BaseLines(fy, w, sales, sheets).Ok? <==> |SalaryRow(fy, w, sheets.salary)| == |sales.domains|
    ensures BaseLines(fy, w, sales, sheets).Err? ==>
      BaseLines(fy, w, sales, sheets).error == SalaryWidthMismatch(|AllocationColumns(sheets.salary)|, |sales.domains|)
  {
  }

  /** The rows as `Leading`, the expense rows and the optional TNS row put them. */
  lemma BaseLinesParts(fy: FiscalYear, w: Window, sales: SalesSheet, sheets: FiscalSheets)
    requires WellShaped(sales, sheets) && |SalaryRow(fy, w, sheets.salary)| == |sales.domains|
    ensures BaseLines(fy, w, sales, sheets).Ok?
    ensures var s := SalesRow(fy, w, sales);
      var cats := Categories(sheets.expenses.lines);
      var lead := Leading(s, DeferredRow(DeferredTotal(fy, w, sheets.deferred, sheets.deferred.records), sales.domains),
                          PurchaseRow(w, sheets.purchases, sales.domains), SalaryRow(fy, w, sheets.salary));
      var exp := ExpenseLines(cats, sheets.expenses, ExpenseColumnsFor(fy, w, sheets.salary, sheets.expenses), s);
      var tns := if sheets.tns.Some? then [Line("TNS Expenses", TnsRow(fy, w, sheets.tns.value, sales.domains))] else [];
      BaseLines(fy, w, sales, sheets).value == lead + exp + tns
  {
  }

  /** The Sales row, the allocated rows and their order: the five leading rows, then one
      row per expense category in order of first appearance, then TNS Expenses when that
      sheet was read. */
  lemma {:induction false} BaseLinesLayout(fy: FiscalYear, w: Window, sales: SalesSheet, sheets: FiscalSheets)
    requires WellShaped(sales, sheets) && |SalaryRow(fy, w, sheets.salary)| == |sales.domains|
    ensures BaseLines(fy, w, sales, sheets).Ok?
    ensures var b := BaseLines(fy, w, sales, sheets).value;
      var cats := Categories(sheets.expenses.lines);
      var s := SalesRow(fy, w, sales);
      var d := DeferredRow(DeferredTotal(fy, w, sheets.deferred, sheets.deferred.records), sales.domains);
      var p := PurchaseRow(w, sheets.purchases, sales.domains);
      && |b| == 5 + |cats| + (if sheets.tns.Some? then 1 else 0)
      && b[0] == Line("Sales", s)
      && b[1] == Line("Deferred Revenue", d)
      && b[2] == Line("Purchase", p)
      && b[3] == Line("Gross Profit", GrossProfitRow(s, d, p))
      && b[4] == Line("Salary & Incentives", SalaryRow(fy, w, sheets.salary))
      && (forall k :: 0 <= k < |cats| ==> b[5 + k].name == cats[k])
      && (sheets.tns.Some? ==> b[|b| - 1] == Line("TNS Expenses", TnsRow(fy, w, sheets.tns.value, sales.domains)))
  {
    var sal := SalaryRow(fy, w, sheets.salary);
    var s := SalesRow(fy, w, sales);
    var d := DeferredRow(DeferredTotal(fy, w, sheets.deferred, sheets.deferred.records), sales.domains);
    var p := PurchaseRow(w, sheets.purchases, sales.domains);
    var cats := Categories(sheets.expenses.lines);
    var exp := ExpenseLines(cats, sheets.expenses, ExpenseColumnsFor(fy, w, sheets.salary, sheets.expenses), s);
    var tns := if sheets.tns.Some? then [Line("TNS Expenses", TnsRow(fy, w, sheets.tns.value, sales.domains))] else [];
    BaseLinesParts(fy, w, sales, sheets);
    ThreePartLayout(Leading(s, d, p, sal), exp, tns, cats);
  }

  /** Positions in `lead + exp + tns`: the five leading rows, then the named expense rows,
      then the optional last row. */
  lemma ThreePartLayout(lead: seq<Line>, exp: seq<Line>, tns: seq<Line>, cats: seq<string>)
    requires |lead| == 5 && |exp| == |cats| && |tns| <= 1
    requires forall k :: 0 <= k < |exp| ==> exp[k].name == cats[k]
    ensures var b := lead + exp + tns;
      && |b| == 5 + |cats| + |tns|
      && b[0] == lead[0] && b[1] == lead[1] && b[2] == lead[2] && b[3] == lead[3] && b[4] == lead[4]
      && (forall k :: 0 <= k < |cats| ==> b[5 + k].name == cats[k])
      && (|tns| == 1 ==> b[|b| - 1] == tns[0])
  {
    var b := lead + exp + tns;
    forall k | 0 <= k < |cats|
      ensures b[5 + k].name == cats[k]
    {
      assert b[5 + k] == exp[k];
    }
  }

  // ---- Net Profit -------------------------------------------------------------------------

  lemma {:induction false} ColumnSumAppend(a: seq<Line>, b: seq<Line>, d: nat)
    requires forall k :: 0 <= k < |a| ==> d < |a[k].values|
    requires forall k :: 0 <= k < |b| ==> d < |b[k].values|
    ensures ColumnSum(a + b, d) == ColumnSum(a, d) + ColumnSum(b, d)
    decreases |b|
  {
    if b == [] {
      assert a + b == a;
    } else {
      var n := |b| - 1;
      assert (a + b)[..|a + b| - 1] == a + b[..n];
      assert (a + b)[|a + b| - 1] == b[n];
      ColumnSumAppend(a, b[..n], d);
    }
  }

  lemma ColumnSumSingle(x: Line, d: nat)
    requires d < |x.values|
    ensures ColumnSum([x], d) == x.values[d]
  {
    assert [x][..0] == [];
  }

  /** The five leading rows by name, then c more rows, then one more when `hasTns`. */
  predicate LeadingLayout(b: seq<Line>, c: nat, hasTns: bool) {
    && |b| == 5 + c + (if hasTns then 1 else 0)
    && b[0].name == "Sales" && b[1].name == "Deferred Revenue" && b[2].name == "Purchase"
    && b[3].name == "Gross Profit" && b[4].name == "Salary & Incentives"
  }

  /** Net Profit on rows laid out as the dashboard lays them out: Gross Profit minus
      Salary & Incentives, minus the c expense rows, minus the TNS row when there is one. */
  lemma {:induction false} NetProfitOfLayout(b: seq<Line>, n: nat, c: nat, hasTns: bool)
    requires Rows(b, n) && LeadingLayout(b, c, hasTns)
    ensures WithNetProfit(b, n).Ok?
    ensures var l := WithNetProfit(b, n).value;
      && |l| == |b| + 1 && l[..|b|] == b && l[|b|].name == "Net Profit" && |l[|b|].values| == n
      && forall d :: 0 <= d < n ==>
           l[|b|].values[d] == b[3].values[d] - b[4].values[d] - ColumnSum(b[5..5 + c], d)
                               - (if hasTns then b[|b| - 1].values[d] else 0.0)
  {
    var rows := ToRows(b);
    FindRowAt(rows, "Gross Profit", 3);
    FindRowAt(rows, "Salary & Incentives", 4);
    var l := WithNetProfit(b, n).value;
    assert l == b + [Line("Net Profit", NetProfitValues(b, 3, 4, n))];
    forall d | 0 <= d < n
      ensures l[|b|].values[d] == b[3].values[d] - b[4].values[d] - ColumnSum(b[5..5 + c], d)
                                  - (if hasTns then b[|b| - 1].values[d] else 0.0)
    {
      CostsSplit(b, n, c, hasTns, d);
    }
  }

  /** The rows from Salary & Incentives on, summed in one column, split into Salary, the
      expense rows and the TNS row. */
  lemma {:induction false} CostsSplit(b: seq<Line>, n: nat, c: nat, hasTns: bool, d: nat)
    requires Rows(b, n) && LeadingLayout(b, c, hasTns) && d < n
    ensures ColumnSum(b[4..], d) ==
      b[4].values[d] + ColumnSum(b[5..5 + c], d) + (if hasTns then b[|b| - 1].values[d] else 0.0)
  {
    var tail := if hasTns then [b[|b| - 1]] else [];
    assert b[4..] == [b[4]] + b[5..5 + c] + tail;
    ColumnSumAppend([b[4]] + b[5..5 + c], tail, d);
    ColumnSumAppend([b[4]], b[5..5 + c], d);
    ColumnSumSingle(b[4], d);
    if hasTns {
      ColumnSumSingle(b[|b| - 1], d);
    } else {
      assert ColumnSum(tail, d) == 0.0;
    }
  }

  /** Net Profit is always produced once the Salary row fits: it is the last row, and in
      every domain column it is Gross Profit minus Salary & Incentives, minus every expense
      row, minus TNS Expenses when that sheet was read. */
  lemma {:induction false} NetProfitLessCosts(fy: FiscalYear, w: Window, sales: SalesSheet, sheets: FiscalSheets)
    requires WellShaped(sales, sheets) && |SalaryRow(fy, w, sheets.salary)| == |sales.domains|
    ensures var b := BaseLines(fy, w, sales, sheets).value;
      var n := |sales.domains|;
      var c := |Categories(sheets.expenses.lines)|;
      && WithNetProfit(b, n).Ok?
      && var l := WithNetProfit(b, n).value;
      && |l| == |b| + 1 && l[..|b|] == b && l[|b|].name == "Net Profit" && |l[|b|].values| == n
      && forall d :: 0 <= d < n ==>
           l[|b|].values[d] == b[3].values[d] - b[4].values[d] - ColumnSum(b[5..5 + c], d)
                               - (if sheets.tns.Some? then b[|b| - 1].values[d] else 0.0)
  {
    BaseLinesLayout(fy, w, sales, sheets);
    var b := BaseLines(fy, w, sales, sheets).value;
    NetProfitOfLayout(b, |sales.domains|, |Categories(sheets.expenses.lines)|, sheets.tns.Some?);
  }

  /** The only way the year's matrix is not produced is a Salary & Incentives row whose
      width differs from the number of Sales domains. */
  lemma {:induction false} FailsOnlyOnSalaryWidth(fy: FiscalYear, w: Window, sales: SalesSheet, sheets: FiscalSheets)
    requires WellShaped(sales, sheets)
    ensures FiscalMatrix(fy, w, sales, sheets).Ok? <==> |AllocationColumns(sheets.salary)| == |sales.domains|
    ensures FiscalMatrix(fy, w, sales, sheets).Err? ==>
      FiscalMatrix(fy, w, sales, sheets).error == SalaryWidthMismatch(|AllocationColumns(sheets.salary)|, |sales.domains|)
  {
    BaseLinesOutcome(fy, w, sales, sheets);
    if |AllocationColumns(sheets.salary)| == |sales.domains| {
      NetProfitLessCosts(fy, w, sales, sheets);
    }
  }

  // ---- the Total column ----------------------------------------------------------------

  /** Rows 0 to 3 are Sales, Deferred Revenue, Purchase and Gross Profit, and in every
      column `parse_num` of Gross Profit is that of Sales minus Deferred Revenue minus
      Purchase. */
  predicate GrossProfitHolds(t: Table)
    requires Rectangular(t)
  {
    && |t.rows| >= 4
    && t.rows[0].name == "Sales" && t.rows[1].name == "Deferred Revenue"
    && t.rows[2].name == "Purchase" && t.rows[3].name == "Gross Profit"
    && forall j :: 0 <= j < |t.columns| ==>
         ParseNum(t.rows[3].cells[j]) ==
           ParseNum(t.rows[0].cells[j]) - ParseNum(t.rows[1].cells[j]) - ParseNum(t.rows[2].cells[j])
  }

  /** Row sums keep a cell-by-cell difference. */
  lemma {:induction false} SumParsedDifference(g: seq<Cell>, a: seq<Cell>, b: seq<Cell>, c: seq<Cell>)
    requires |a| == |g| && |b| == |g| && |c| == |g|
    requires forall k :: 0 <= k < |g| ==> ParseNum(g[k]) == ParseNum(a[k]) - ParseNum(b[k]) - ParseNum(c[k])
    ensures SumParsed(g) == SumParsed(a) - SumParsed(b) - SumParsed(c)
  {
    if g != [] {
      var n := |g| - 1;
      SumParsedDifference(g[..n], a[..n], b[..n], c[..n]);
    }
  }

  /** `insert_total_column` keeps the Gross Profit identity, its own Total column included. */
  lemma {:induction false} WithTotalKeepsGrossProfit(t: Table)
    requires Rectangular(t) && GrossProfitHolds(t)
    ensures GrossProfitHolds(WithTotal(t))
  {
    var r := WithTotal(t);
    forall j | 0 <= j < |r.columns|
      ensures ParseNum(r.rows[3].cells[j]) ==
        ParseNum(r.rows[0].cells[j]) - ParseNum(r.rows[1].cells[j]) - ParseNum(r.rows[2].cells[j])
    {
      TotalKeepsGrossProfitAt(t, j);
    }
  }

  /** Column j of the Gross Profit identity, after the Total column is added. */
  lemma TotalKeepsGrossProfitAt(t: Table, j: nat)
    requires Rectangular(t) && GrossProfitHolds(t) && j < |WithTotal(t).columns|
    ensures var r := WithTotal(t);
      ParseNum(r.rows[3].cells[j]) ==
        ParseNum(r.rows[0].cells[j]) - ParseNum(r.rows[1].cells[j]) - ParseNum(r.rows[2].cells[j])
  {
    WithTotalCell(t, 0, j);
    WithTotalCell(t, 1, j);
    WithTotalCell(t, 2, j);
    WithTotalCell(t, 3, j);
    if AddsTotal(t) && j == TotalPosition(t) {
      SumParsedDifference(t.rows[3].cells, t.rows[0].cells, t.rows[1].cells, t.rows[2].cells);
      ParseNumOfWhole(SumParsed(t.rows[0].cells));
      ParseNumOfWhole(SumParsed(t.rows[1].cells));
      ParseNumOfWhole(SumParsed(t.rows[2].cells));
      ParseNumOfWhole(SumParsed(t.rows[3].cells));
    }
  }

  /** Deferred Revenue sits under "G-Suite Business" alone: in every column other than the
      added Total, row 1 holds the deferred total under that domain and 0 elsewhere. */
  predicate DeferredOnlyGSuite(t: Table, total: real)
    requires Rectangular(t)
  {
    && |t.rows| >= 2 && t.rows[1].name == "Deferred Revenue"
    && forall j :: 0 <= j < |t.columns| && t.columns[j] != "Total" ==>
         t.rows[1].cells[j] == Num(if t.columns[j] == "G-Suite Business" then total else 0.0)
  }

  lemma {:induction false} WithTotalKeepsDeferred(t: Table, total: real)
    requires Rectangular(t) && DeferredOnlyGSuite(t, total)
    ensures DeferredOnlyGSuite(WithTotal(t), total)
  {
    var r := WithTotal(t);
    forall j | 0 <= j < |r.columns| && r.columns[j] != "Total"
      ensures r.rows[1].cells[j] == Num(if r.columns[j] == "G-Suite Business" then total else 0.0)
    {
      WithTotalCell(t, 1, j);
    }
  }

  /** The second `insert_total_column`, after the Net Profit % row, changes nothing. */
  lemma {:induction false} SecondTotalNoop(t: Table)
    requires Rectangular(t)
    ensures WithTotal(WithPercentRow(WithTotal(t))) == WithPercentRow(WithTotal(t))
  {
    if AddsTotal(t) {
      TotalColumnPlacement(t);
      assert "Total" in WithTotal(t).columns;
    }
    assert !AddsTotal(WithTotal(t));
  }

  // ---- Net Profit % ----------------------------------------------------------------------

  /** The Net Profit % step: any earlier row of that name is dropped; when Sales and Net
      Profit are both found, one row is appended whose cell in every column is the
      percentage of the Net Profit cell over the Sales cell (so the '' padding never comes
      into play); otherwise only the dropping happens. */
  lemma {:induction false} PercentRowAppended(t: Table)
    requires Rectangular(t)
    ensures var r := WithPercentRow(t);
      var kept := WithoutLabel(t.rows, "Net Profit %");
      if FindRow(t.rows, "Sales").Some? && FindRow(t.rows, "Net Profit").Some? then
        && FindRow(kept, "Sales").Some? && FindRow(kept, "Net Profit").Some?
        && var si := FindRow(kept, "Sales").value;
        && var ni := FindRow(kept, "Net Profit").value;
        && |r.rows| == |kept| + 1 && r.rows[..|kept|] == kept
        && r.rows[|kept|].name == "Net Profit %"
        && |r.rows[|kept|].cells| == |t.columns|
        && forall j :: 0 <= j < |t.columns| ==>
             r.rows[|kept|].cells[j] == Percent(PercentOf(kept[ni].cells[j], kept[si].cells[j]))
      else
        r.rows == kept
  {
    var kept := WithoutLabel(t.rows, "Net Profit %");
    var fs := FindRow(t.rows, "Sales");
    var fn := FindRow(t.rows, "Net Profit");
    if fs.Some? && fn.Some? {
      assert t.rows[fs.value] in kept;
      assert t.rows[fn.value] in kept;
      FindRowPresent(kept, t.rows[fs.value]);
      FindRowPresent(kept, t.rows[fn.value]);
      PercentRowFound(t, FindRow(kept, "Sales").value, FindRow(kept, "Net Profit").value);
    } else {
      assert PercentRow(Table(t.columns, kept)).None? by {
        if fs.None? {
          assert FindRow(kept, "Sales").None?;
        } else {
          assert FindRow(kept, "Net Profit").None?;
        }
      }
    }
  }

  /** The appended row, once Sales and Net Profit are found among the kept rows. */
  lemma PercentRowFound(t: Table, si: nat, ni: nat)
    requires Rectangular(t)
    requires FindRow(WithoutLabel(t.rows, "Net Profit %"), "Sales") == Some(si)
    requires FindRow(WithoutLabel(t.rows, "Net Profit %"), "Net Profit") == Some(ni)
    ensures var kept := WithoutLabel(t.rows, "Net Profit %");
      var r := WithPercentRow(t);
      && |r.rows| == |kept| + 1 && r.rows[..|kept|] == kept
      && r.rows[|kept|].name == "Net Profit %"
      && |r.rows[|kept|].cells| == |t.columns|
      && forall j :: 0 <= j < |t.columns| ==>
           r.rows[|kept|].cells[j] == Percent(PercentOf(kept[ni].cells[j], kept[si].cells[j]))
  {
    var kept := WithoutLabel(t.rows, "Net Profit %");
    assert kept[si] in t.rows && kept[ni] in t.rows;
    var cells := PercentCells(kept[ni].cells, kept[si].cells);
    assert |kept[ni].cells| == |t.columns| && |kept[si].cells| == |t.columns|;
    assert FitToWidth(cells, |t.columns|) == cells;
    var row := Row("Net Profit %", cells);
    assert WithPercentRow(t).rows == kept + [row];
    AppendedLast(kept, row);
    forall j | 0 <= j < |t.columns|
      ensures cells[j] == Percent(PercentOf(kept[ni].cells[j], kept[si].cells[j]))
    {
    }
  }

  lemma AppendedLast<T>(s: seq<T>, x: T)
    ensures |s + [x]| == |s| + 1 && (s + [x])[..|s|] == s && (s + [x])[|s|] == x
  {
  }

  /** Dropping and appending Net Profit % leaves the four leading rows alone. */
  lemma {:induction false} WithPercentRowKeepsLeading(t: Table)
    requires Rectangular(t) && |t.rows| >= 4
    requires forall k :: 0 <= k < 4 ==> t.rows[k].name != "Net Profit %"
    ensures |WithPercentRow(t).rows| >= 4 && WithPercentRow(t).rows[..4] == t.rows[..4]
  {
    var kept := WithoutLabel(t.rows, "Net Profit %");
    WithoutLabelKeepsPrefix(t.rows, "Net Profit %", 4);
    var r := WithPercentRow(t);
    assert r.rows == kept || r.rows[..|kept|] == kept;
    assert r.rows[..4] == kept[..4];
  }

  // ---- the assembled matrix ------------------------------------------------------------

  /** Lines that begin with Sales, Deferred Revenue, Purchase and Gross Profit, in the
      dashboard's shapes, make a table with those identities. */
  lemma {:induction false} LeadingLinesTable(l: seq<Line>, domains: seq<string>, s: seq<real>, p: seq<real>, total: real)
    requires Rows(l, |domains|) && |l| >= 4 && |s| == |domains| && |p| == |domains|
    requires l[0] == Line("Sales", s)
    requires l[1] == Line("Deferred Revenue", DeferredRow(total, domains))
    requires l[2] == Line("Purchase", p)
    requires l[3] == Line("Gross Profit", GrossProfitRow(s, DeferredRow(total, domains), p))
    ensures Rectangular(Table(domains, ToRows(l)))
    ensures GrossProfitHolds(Table(domains, ToRows(l)))
    ensures DeferredOnlyGSuite(Table(domains, ToRows(l)), total)
  {
    var t0 := Table(domains, ToRows(l));
    var d := DeferredRow(total, domains);
    forall j | 0 <= j < |domains|
      ensures ParseNum(t0.rows[3].cells[j]) ==
        ParseNum(t0.rows[0].cells[j]) - ParseNum(t0.rows[1].cells[j]) - ParseNum(t0.rows[2].cells[j])
    {
      assert t0.rows[3].cells[j] == Num(GrossProfitRow(s, d, p)[j]);
      ParseNumOfWhole(ParseNum(Num(s[j])) - ParseNum(Num(d[j])) - ParseNum(Num(p[j])));
    }
  }

  /** The table the Net Profit rows become, before the Total column: one column per Sales
      domain, with the leading rows, the deferred total under "G-Suite Business" and Net
      Profit last. */
  lemma {:induction false} FirstTable(fy: FiscalYear, w: Window, sales: SalesSheet, sheets: FiscalSheets)
    returns (t0: Table)
    requires WellShaped(sales, sheets) && |AllocationColumns(sheets.salary)| == |sales.domains|
    ensures Rectangular(t0) && t0.columns == sales.domains
    ensures Assembled(fy, w, sales, sheets) == Ok(WithPercentRow(WithTotal(t0)))
    ensures GrossProfitHolds(t0)
    ensures DeferredOnlyGSuite(t0, DeferredTotal(fy, w, sheets.deferred, sheets.deferred.records))
    ensures |t0.rows| >= 6 && t0.rows[4].name == "Salary & Incentives"
    ensures t0.rows[|t0.rows| - 1].name == "Net Profit"
  {
    NetProfitLessCosts(fy, w, sales, sheets);
    BaseLinesLayout(fy, w, sales, sheets);
    var n := |sales.domains|;
    var b := BaseLines(fy, w, sales, sheets).value;
    var l := WithNetProfit(b, n).value;
    t0 := Table(sales.domains, ToRows(l));
    assert l[..|b|] == b;
    forall k | 0 <= k < 5
      ensures l[k] == b[k]
    {
      assert l[k] == l[..|b|][k];
    }
    LeadingLinesTable(l, sales.domains, b[0].values, b[2].values,
      DeferredTotal(fy, w, sheets.deferred, sheets.deferred.records));
  }

  /** The Total column and the Net Profit % row keep the leading-row identities. */
  lemma {:induction false} FinishingKeepsLeadingRows(t0: Table, total: real)
    requires Rectangular(t0) && GrossProfitHolds(t0) && DeferredOnlyGSuite(t0, total)
    ensures GrossProfitHolds(WithPercentRow(WithTotal(t0)))
    ensures DeferredOnlyGSuite(WithPercentRow(WithTotal(t0)), total)
  {
    var tt := WithTotal(t0);
    WithTotalKeepsGrossProfit(t0);
    WithTotalKeepsDeferred(t0, total);
    WithPercentRowKeepsLeading(tt);
    SameLeadingRows(tt, WithPercentRow(tt), total);
  }

  /** Both predicates read only the columns and the first four rows. */
  lemma SameLeadingRows(a: Table, b: Table, total: real)
    requires Rectangular(a) && Rectangular(b) && a.columns == b.columns
    requires |a.rows| >= 4 && |b.rows| >= 4 && a.rows[..4] == b.rows[..4]
    ensures GrossProfitHolds(a) ==> GrossProfitHolds(b)
    ensures DeferredOnlyGSuite(a, total) ==> DeferredOnlyGSuite(b, total)
  {
    assert forall k :: 0 <= k < 4 ==> a.rows[k] == a.rows[..4][k] && b.rows[k] == b.rows[..4][k];
  }

  /** Sales is the first row, a Net Profit row exists, and the last row is Net Profit %,
      whose cell in every column is the first Net Profit cell of that column as a
      percentage of the Sales cell. */
  predicate EndsInPercentRow(t: Table)
    requires Rectangular(t)
  {
    && |t.rows| >= 2 && t.rows[0].name == "Sales"
    && FindRow(t.rows, "Net Profit").Some?
    && var last := t.rows[|t.rows| - 1];
    && var ni := FindRow(t.rows, "Net Profit").value;
    && last.name == "Net Profit %"
    && forall j :: 0 <= j < |t.columns| ==>
         last.cells[j] == Percent(PercentOf(t.rows[ni].cells[j], t.rows[0].cells[j]))
  }

  /** On a table whose row 0 is Sales and whose last row is Net Profit, the finished table
      ends in the Net Profit % row built from those two. */
  lemma {:induction false} FinishingAddsPercentRow(t0: Table)
    requires Rectangular(t0) && GrossProfitHolds(t0) && t0.rows[|t0.rows| - 1].name == "Net Profit"
    ensures EndsInPercentRow(WithPercentRow(WithTotal(t0)))
  {
    TotalKeepsSalesAndNetProfit(t0);
    PercentRowAfterSales(WithTotal(t0));
  }

  /** The Total column keeps Sales first, Net Profit present and no Net Profit % row
      among the leading four. */
  lemma {:induction false} TotalKeepsSalesAndNetProfit(t0: Table)
    requires Rectangular(t0) && GrossProfitHolds(t0) && t0.rows[|t0.rows| - 1].name == "Net Profit"
    ensures var tt := WithTotal(t0);
      && Rectangular(tt) && |tt.rows| >= 4 && tt.rows[0].name == "Sales"
      && (forall k :: 0 <= k < 4 ==> tt.rows[k].name != "Net Profit %")
      && FindRow(tt.rows, "Net Profit").Some?
  {
    var tt := WithTotal(t0);
    WithTotalKeepsGrossProfit(t0);
    FindRowPresent(tt.rows, tt.rows[|tt.rows| - 1]);
  }

  /** On a table led by Sales that holds Net Profit, the Net Profit % step appends its row
      last, built from Sales and the first Net Profit row. */
  lemma {:induction false} PercentRowAfterSales(tt: Table)
    requires Rectangular(tt) && |tt.rows| >= 4 && tt.rows[0].name == "Sales"
    requires forall k :: 0 <= k < 4 ==> tt.rows[k].name != "Net Profit %"
    requires FindRow(tt.rows, "Net Profit").Some?
    ensures EndsInPercentRow(WithPercentRow(tt))
  {
    FindRowAt(tt.rows, "Sales", 0);
    var kept := WithoutLabel(tt.rows, "Net Profit %");
    var t := WithPercentRow(tt);
    PercentRowAppended(tt);
    var last := t.rows[|kept|];
    SplitLast(t.rows, kept);
    assert kept[0] == tt.rows[0] by {
      WithPercentRowKeepsLeading(tt);
      assert t.rows[0] == t.rows[..4][0] == tt.rows[..4][0];
    }
    FindRowAt(kept, "Sales", 0);
    FindRowAppend(kept, [last], "Net Profit");
  }

  lemma SplitLast<T>(s: seq<T>, front: seq<T>)
    requires |s| == |front| + 1 && s[..|front|] == front
    ensures s == front + [s[|front|]]
  {
    assert s == s[..|front|] + [s[|front|]];
  }

  /** In the finished matrix (before formatting), Sales, Deferred Revenue, Purchase and
      Gross Profit lead, Gross Profit is Sales minus Deferred Revenue minus Purchase in
      every column including Total, and Deferred Revenue sits under "G-Suite Business"
      alone. */
  lemma {:induction false} AssembledLeadingRows(fy: FiscalYear, w: Window, sales: SalesSheet, sheets: FiscalSheets)
    requires WellShaped(sales, sheets) && |AllocationColumns(sheets.salary)| == |sales.domains|
    ensures Assembled(fy, w, sales, sheets).Ok?
    ensures var t := Assembled(fy, w, sales, sheets).value;
      && GrossProfitHolds(t)
      && DeferredOnlyGSuite(t, DeferredTotal(fy, w, sheets.deferred, sheets.deferred.records))
  {
    var t0 := FirstTable(fy, w, sales, sheets);
    FinishingKeepsLeadingRows(t0, DeferredTotal(fy, w, sheets.deferred, sheets.deferred.records));
  }

  /** The finished matrix ends in the Net Profit % row, whose cell in every column is the
      Net Profit cell of that column as a percentage of the Sales cell. */
  lemma {:induction false} AssembledPercentRow(fy: FiscalYear, w: Window, sales: SalesSheet, sheets: FiscalSheets)
    requires WellShaped(sales, sheets) && |AllocationColumns(sheets.salary)| == |sales.domains|
    ensures Assembled(fy, w, sales, sheets).Ok?
    ensures EndsInPercentRow(Assembled(fy, w, sales, sheets).value)
  {
    var t0 := FirstTableShape(fy, w, sales, sheets);
    FinishingAddsPercentRow(t0);
  }

  /** The finished table's columns are those with Total inserted, and inserting Total
      once more changes nothing. */
  lemma {:induction false} FinishingColumns(t0: Table)
    requires Rectangular(t0)
    ensures var t := WithPercentRow(WithTotal(t0));
      WithTotal(t) == t && t.columns == TotalledColumns(t0.columns)
  {
    SecondTotalNoop(t0);
    assert WithPercentRow(WithTotal(t0)).columns == WithTotal(t0).columns;
    WithTotalColumns(t0);
  }

  /** The finished matrix has one column per Sales domain, plus "Total" right after
      "Other Services" when the domains have the one and not the other; inserting the
      Total column again changes nothing. */
  lemma {:induction false} AssembledColumns(fy: FiscalYear, w: Window, sales: SalesSheet, sheets: FiscalSheets)
    requires WellShaped(sales, sheets) && |AllocationColumns(sheets.salary)| == |sales.domains|
    ensures Assembled(fy, w, sales, sheets).Ok?
    ensures var t := Assembled(fy, w, sales, sheets).value;
      WithTotal(t) == t && t.columns == TotalledColumns(sales.domains)
  {
    var t0 := FirstTableShape(fy, w, sales, sheets);
    FinishingColumns(t0);
  }

  /** The part of `FirstTable` the finishing steps need. */
  lemma FirstTableShape(fy: FiscalYear, w: Window, sales: SalesSheet, sheets: FiscalSheets)
    returns (t0: Table)
    requires WellShaped(sales, sheets) && |AllocationColumns(sheets.salary)| == |sales.domains|
    ensures Rectangular(t0) && t0.columns == sales.domains
    ensures Assembled(fy, w, sales, sheets) == Ok(WithPercentRow(WithTotal(t0)))
    ensures GrossProfitHolds(t0) && t0.rows[|t0.rows| - 1].name == "Net Profit"
  {
    t0 := FirstTable(fy, w, sales, sheets);
  }

  // ---- single-month windows ------------------------------------------------------------

  /** With each month's own year, the twelve single-month windows split the "All" window:
      a label is in the year exactly when some single month reads it, and no two months
      read the same label. */
  lemma {:induction false} SingleMonthsPartitionYear(fy: FiscalYear, month: string)
    requires !fy.asWritten
    ensures InWindow(fy, WholeYear, month) <==> exists i: FiscalMonth :: InWindow(fy, SingleMonth(i), month)
    ensures forall i: FiscalMonth, j: FiscalMonth ::
      InWindow(fy, SingleMonth(i), month) && InWindow(fy, SingleMonth(j), month) ==> i == j
  {
    AllWindowShape(fy);
    if InWindow(fy, WholeYear, month) {
      var k := IndexOf(AllWindow(fy), month);
      assert InWindow(fy, SingleMonth(k), month);
    }
  }

  /** As written, "Jan-26" is in FY 2025-26's "All" window and in none of its twelve
      single-month windows. */
  lemma JanuaryMissedAsWritten()
    ensures InWindow(FY2025_26, WholeYear, "Jan-26")
    ensures forall i: FiscalMonth :: !InWindow(FY2025_26, SingleMonth(i), "Jan-26")
  {
    FiscalLabelExamples();
    WindowEntry(FY2025_26, 9);
    assert YearSuffix(2025) == "25";
    forall i: FiscalMonth
      ensures !InWindow(FY2025_26, SingleMonth(i), "Jan-26")
    {
      LabelParts(FiscalAbbreviations[i], YearSuffix(2025), "Jan", "26");
    }
  }

  /** What one Sales record adds to domain column d over the first m single months. */
  function MonthsContribution(fy: FiscalYear, sales: SalesSheet, r: SalesRecord, d: nat, m: nat): real
    requires m <= 12 && d < |r.amounts|
  {
    if m == 0 then 0.0
    else MonthsContribution(fy, sales, r, d, m - 1) + (if SalesSelected(fy, SingleMonth(m - 1), sales, r) then r.amounts[d] else 0.0)
  }

  /** The Sales of domain column d over the first m single months. */
  function MonthsSales(fy: FiscalYear, sales: SalesSheet, records: seq<SalesRecord>, d: nat, m: nat): real
    requires m <= 12 && forall k :: 0 <= k < |records| ==> d < |records[k].amounts|
  {
    if m == 0 then 0.0 else MonthsSales(fy, sales, records, d, m - 1) + SalesColumn(fy, SingleMonth(m - 1), sales, records, d)
  }

  lemma {:induction false} MonthsSalesStep(fy: FiscalYear, sales: SalesSheet, records: seq<SalesRecord>, d: nat, m: nat)
    requires m <= 12 && records != [] && forall k :: 0 <= k < |records| ==> d < |records[k].amounts|
    ensures MonthsSales(fy, sales, records, d, m) ==
      MonthsSales(fy, sales, records[..|records| - 1], d, m) + MonthsContribution(fy, sales, records[|records| - 1], d, m)
  {
    if m > 0 {
      MonthsSalesStep(fy, sales, records, d, m - 1);
    }
  }

  /** A record counts once over the first m months when its label is one of the first m
      labels of the year and its FY matches, and not at all otherwise. */
  lemma {:induction false} MonthsContributionOnce(fy: FiscalYear, sales: SalesSheet, r: SalesRecord, d: nat, m: nat)
    requires !fy.asWritten && m <= 12 && d < |r.amounts|
    ensures var name := FormatMonth(r.month);
      MonthsContribution(fy, sales, r, d, m) ==
        if SalesSelected(fy, WholeYear, sales, r) && IndexOf(AllWindow(fy), name) < m then r.amounts[d] else 0.0
  {
    if m > 0 {
      MonthsContributionOnce(fy, sales, r, d, m - 1);
      var name := FormatMonth(r.month);
      var aw := AllWindow(fy);
      AllWindowShape(fy);
      assert SalesSelected(fy, SingleMonth(m - 1), sales, r) <==>
        (!sales.hasFyColumn || r.fy == FiscalYearName(fy)) && name == aw[m - 1];
      if name in aw {
        var k := IndexOf(aw, name);
        assert name == aw[m - 1] <==> k == m - 1;
      } else {
        assert name != aw[m - 1];
      }
    }
  }

  /** With each month's own year, the twelve single-month Sales rows add up to the "All"
      Sales row, domain by domain. */
  lemma {:induction false} SingleMonthSalesAddUp(fy: FiscalYear, sales: SalesSheet, records: seq<SalesRecord>, d: nat)
    requires !fy.asWritten && forall k :: 0 <= k < |records| ==> d < |records[k].amounts|
    ensures MonthsSales(fy, sales, records, d, 12) == SalesColumn(fy, WholeYear, sales, records, d)
  {
    if records == [] {
      assert MonthsSales(fy, sales, records, d, 12) == 0.0 by {
        forall m | 0 <= m <= 12
          ensures MonthsSales(fy, sales, records, d, m) == 0.0
        {
          ZeroSalesOfNoRecords(fy, sales, records, d, m);
        }
      }
    } else {
      var r := records[|records| - 1];
      SingleMonthSalesAddUp(fy, sales, records[..|records| - 1], d);
      MonthsSalesStep(fy, sales, records, d, 12);
      MonthsContributionOnce(fy, sales, r, d, 12);
    }
  }

  lemma {:induction false} ZeroSalesOfNoRecords(fy: FiscalYear, sales: SalesSheet, records: seq<SalesRecord>, d: nat, m: nat)
    requires records == [] && m <= 12
    ensures MonthsSales(fy, sales, records, d, m) == 0.0
  {
    if m > 0 {
      ZeroSalesOfNoRecords(fy, sales, records, d, m - 1);
    }
  }

  /** As written, a FY 2025-26 sale dated in January 2026 counts in the "All" Sales row and
      in none of the twelve single-month rows, so the months do not add up to the year. */
  lemma JanuarySaleMissedAsWritten(amount: real)
    requires amount != 0.0
    ensures var sales := SalesSheet(["G-Suite Business"], false, [SalesRecord(Dated(Date(2026, 1, 15)), "2025-26", [amount])]);
      && SalesColumn(FY2025_26, WholeYear, sales, sales.records, 0) == amount
      && MonthsSales(FY2025_26, sales, sales.records, 0, 12) == 0.0
      && MonthsSales(FY2025_26, sales, sales.records, 0, 12) != SalesColumn(FY2025_26, WholeYear, sales, sales.records, 0)
  {
    var sales := SalesSheet(["G-Suite Business"], false, [SalesRecord(Dated(Date(2026, 1, 15)), "2025-26", [amount])]);
    var r := sales.records[0];
    assert YearSuffix(2026) == "26";
    assert FormatMonth(r.month) == "Jan-26";
    JanuaryMissedAsWritten();
    assert sales.records[..0] == [];
    forall m | 0 <= m <= 12
      ensures MonthsSales(FY2025_26, sales, sales.records, 0, m) == 0.0
    {
      JanuaryMonths(sales, m);
    }
  }

  lemma {:induction false} JanuaryMonths(sales: SalesSheet, m: nat)
    requires m <= 12 && |sales.records| == 1 && |sales.records[0].amounts| == 1
    requires FormatMonth(sales.records[0].month) == "Jan-26"
    requires forall i: FiscalMonth :: !InWindow(FY2025_26, SingleMonth(i), "Jan-26")
    ensures MonthsSales(FY2025_26, sales, sales.records, 0, m) == 0.0
  {
    if m > 0 {
      JanuaryMonths(sales, m - 1);
      assert sales.records[..0] == [];
      assert !SalesSelected(FY2025_26, SingleMonth(m - 1), sales, sales.records[0]);
      assert SalesColumn(FY2025_26, SingleMonth(m - 1), sales, sales.records, 0) ==
        SalesColumn(FY2025_26, SingleMonth(m - 1), sales, sales.records[..0], 0) + 0.0;
    }
  }
}
