/** One fiscal year's Particulars x Domain matrix, in the order the dashboard builds it:
    Sales, Deferred Revenue, Purchase, Gross Profit, Salary & Incentives, one row per
    expense category, TNS Expenses, Net Profit; then the Total column, the Net Profit %
    row, and Indian digit grouping of every number. The same pipeline serves both fiscal
    years and both kinds of window. */
module Pipeline {
  import opened Cells
  import opened NumberFormat
  import opened FiscalCalendar
  import opened Matrix
  import opened Allocation

  // ---- the sheets ----------------------------------------------------------------------

  /** A "Sales" record: its Month cell, its FY text and one amount per domain column. */
  datatype SalesRecord = SalesRecord(month: MonthCell, fy: string, amounts: seq<real>)

  /** The "Sales" sheet: its domain columns (every column but Month and FY, in sheet
      order), whether it has an FY column, and its records. */
  datatype SalesSheet = SalesSheet(domains: seq<string>, hasFyColumn: bool, records: seq<SalesRecord>)

  datatype DeferredRecord = DeferredRecord(month: MonthCell, amount: Option<real>)

  /** The "Deferred Revenue" sheet; without a "Def. Rev." column its total is 0. */
  datatype DeferredSheet = DeferredSheet(hasDefRevColumn: bool, records: seq<DeferredRecord>)

  /** A domain row of the "Purchases" sheet: its name (column B) and twelve months (C to N). */
  datatype PurchaseLine = PurchaseLine(name: string, monthly: seq<real>)

  /** The other sheets of one fiscal year; `tns` is `None` when that sheet cannot be read. */
  datatype FiscalSheets = FiscalSheets(
    deferred: DeferredSheet,
    purchases: seq<PurchaseLine>,
    salary: SalarySheet,
    expenses: ExpenseSheet,
    tns: Option<TnsSheet>)

  /** The positional layout the dashboard slices the sheets by. Domain names are distinct,
      as the sheet reader makes repeated headers distinct. */
  predicate WellShaped(sales: SalesSheet, sheets: FiscalSheets) {
    && NoDuplicates(sales.domains)
    && (forall k :: 0 <= k < |sales.records| ==> |sales.records[k].amounts| == |sales.domains|)
    && (forall k :: 0 <= k < |sheets.purchases| ==> |sheets.purchases[k].monthly| == 12)
    && SalaryWellShaped(sheets.salary)
    && ExpenseWellShaped(sheets.expenses)
    && (sheets.tns.Some? ==> TnsWellShaped(sheets.tns.value))
  }

  /** Why no matrix comes out: the Salary & Incentives row does not fit the columns
      (pandas raises), or a row looked up by name is missing. */
  datatype PipelineError = SalaryWidthMismatch(values: nat, domains: nat) | MissingRow(name: string)

  datatype Result<T> = Ok(value: T) | Err(error: PipelineError)

  /** A row while the matrix is being built: every value is a number. */
  datatype Line = Line(name: string, values: seq<real>)

  // ---- the window filter ---------------------------------------------------------------

  /** Whether a "Mon-YY" month label is read by the window: one of the twelve labels of
      the fiscal year, or, for a single month, the label the dashboard builds for it. */
  predicate InWindow(fy: FiscalYear, w: Window, month: string) {
    match w
    case WholeYear => month in AllWindow(fy)
    case SingleMonth(i) => month == SingleMonthLabel(fy, i)
  }

  predicate SalesSelected(fy: FiscalYear, w: Window, sales: SalesSheet, r: SalesRecord) {
    (!sales.hasFyColumn || r.fy == FiscalYearName(fy)) && InWindow(fy, w, FormatMonth(r.month))
  }

  // ---- Sales, Deferred Revenue, Purchase, Gross Profit ----------------------------------

  /** The window's sales in domain column d. */
  function SalesColumn(fy: FiscalYear, w: Window, sales: SalesSheet, records: seq<SalesRecord>, d: nat): real
    requires forall k :: 0 <= k < |records| ==> d < |records[k].amounts|
  {
    if records == [] then 0.0
    else
      var r := records[|records| - 1];
      SalesColumn(fy, w, sales, records[..|records| - 1], d) + (if SalesSelected(fy, w, sales, r) then r.amounts[d] else 0.0)
  }

  /** The Sales row: the selected records summed per domain. */
  function SalesRow(fy: FiscalYear, w: Window, sales: SalesSheet): (row: seq<real>)
    requires forall k :: 0 <= k < |sales.records| ==> |sales.records[k].amounts| == |sales.domains|
    ensures |row| == |sales.domains|
  {
    seq(|sales.domains|, d requires 0 <= d < |sales.domains| => SalesColumn(fy, w, sales, sales.records, d))
  }

  /** The window's summed "Def. Rev." (0 without that column). */
  function DeferredTotal(fy: FiscalYear, w: Window, def: DeferredSheet, records: seq<DeferredRecord>): real {
    if !def.hasDefRevColumn || records == [] then 0.0
    else
      var r := records[|records| - 1];
      DeferredTotal(fy, w, def, records[..|records| - 1]) + (if InWindow(fy, w, FormatMonth(r.month)) then Fill(r.amount) else 0.0)
  }

  /** Deferred Revenue is posted entirely to "G-Suite Business". */
  function DeferredRow(total: real, domains: seq<string>): (row: seq<real>)
    ensures |row| == |domains|
  {
    seq(|domains|, k requires 0 <= k < |domains| => if domains[k] == "G-Suite Business" then total else 0.0)
  }

  /** `dict(zip(names, values))[name]`: the last domain row with that name. */
  function PurchaseFor(lines: seq<PurchaseLine>, name: string): (r: Option<seq<real>>)
    ensures r.Some? ==> exists k ::
      && 0 <= k < |lines| && lines[k] == PurchaseLine(name, r.value)
      && forall j :: k < j < |lines| ==> lines[j].name != name
    ensures r.None? ==> forall k :: 0 <= k < |lines| ==> lines[k].name != name
  {
    if lines == [] then None
    else if lines[|lines| - 1].name == name then Some(lines[|lines| - 1].monthly)
    else PurchaseFor(lines[..|lines| - 1], name)
  }

  /** A domain's purchases: the twelve months summed, or the chosen fiscal month. */
  function PurchaseValue(w: Window, monthly: seq<real>): real
    requires |monthly| == 12
  {
    match w
    case WholeYear => SumReals(monthly)
    case SingleMonth(i) => monthly[i]
  }

  /** The Purchase row: per domain, its line's months summed for the whole year or the
      chosen month's value; 0 for a domain without a line. */
  function PurchaseRow(w: Window, lines: seq<PurchaseLine>, domains: seq<string>): (row: seq<real>)
    requires forall k :: 0 <= k < |lines| ==> |lines[k].monthly| == 12
    ensures |row| == |domains|
    ensures forall k :: 0 <= k < |domains| && PurchaseFor(lines, domains[k]).None? ==> row[k] == 0.0
    ensures forall k :: 0 <= k < |domains| && PurchaseFor(lines, domains[k]).Some? ==>
      row[k] == match w
        case WholeYear => SumReals(PurchaseFor(lines, domains[k]).value)
        case SingleMonth(i) => PurchaseFor(lines, domains[k]).value[i]
  {
    seq(|domains|, k requires 0 <= k < |domains| =>
      match PurchaseFor(lines, domains[k])
      case None => 0.0
      case Some(monthly) => PurchaseValue(w, monthly))
  }

  /** The single-month Purchase values of the first m fiscal months, added up. */
  function PurchaseMonths(lines: seq<PurchaseLine>, domains: seq<string>, k: nat, m: nat): real
    requires forall j :: 0 <= j < |lines| ==> |lines[j].monthly| == 12
    requires k < |domains| && m <= 12
  {
    if m == 0 then 0.0 else PurchaseMonths(lines, domains, k, m - 1) + PurchaseRow(SingleMonth(m - 1), lines, domains)[k]
  }

  lemma {:induction false} PurchaseMonthsPrefix(lines: seq<PurchaseLine>, domains: seq<string>, k: nat, m: nat)
    requires forall j :: 0 <= j < |lines| ==> |lines[j].monthly| == 12
    requires k < |domains| && m <= 12
    ensures PurchaseMonths(lines, domains, k, m) ==
      match PurchaseFor(lines, domains[k])
      case None => 0.0
      case Some(monthly) => SumReals(monthly[..m])
  {
    if m > 0 {
      PurchaseMonthsPrefix(lines, domains, k, m - 1);
      match PurchaseFor(lines, domains[k])
      case None =>
      case Some(monthly) =>
        assert monthly[..m][..m - 1] == monthly[..m - 1];
    }
  }

  /** The twelve single-month Purchase values of a domain add up to its "All" value. */
  lemma PurchaseMonthsAddUp(lines: seq<PurchaseLine>, domains: seq<string>, k: nat)
    requires forall j :: 0 <= j < |lines| ==> |lines[j].monthly| == 12
    requires k < |domains|
    ensures PurchaseMonths(lines, domains, k, 12) == PurchaseRow(WholeYear, lines, domains)[k]
  {
    PurchaseMonthsPrefix(lines, domains, k, 12);
    match PurchaseFor(lines, domains[k])
    case None =>
    case Some(monthly) =>
      assert monthly[..12] == monthly;
  }

  /** Gross Profit: `parse_num` of Sales minus that of Deferred Revenue and of Purchase. */
  function GrossProfitRow(s: seq<real>, d: seq<real>, p: seq<real>): (row: seq<real>)
    requires |d| == |s| && |p| == |s|
    ensures |row| == |s|
  {
    seq(|s|, k requires 0 <= k < |s| => (ParseNum(Num(s[k])) - ParseNum(Num(d[k])) - ParseNum(Num(p[k]))) as real)
  }

  // ---- expenses, TNS, Net Profit ------------------------------------------------------

  /** One row per category, in order: its total split by the sales ratios. */
  function ExpenseLines(cats: seq<string>, e: ExpenseSheet, cols: ExpenseColumns, sales: seq<real>): (r: seq<Line>)
    requires ExpenseWellShaped(e) && (cols.OneColumn? ==> cols.p < 12)
    ensures |r| == |cats|
    ensures forall k :: 0 <= k < |r| ==> r[k].name == cats[k] && |r[k].values| == |sales|
  {
    if cats == [] then []
    else
      var n := |cats| - 1;
      ExpenseLines(cats[..n], e, cols, sales) + [Line(cats[n], ExpenseRow(CategoryTotal(e.lines, cats[n], cols), sales))]
  }

  /** The five rows every matrix starts with. */
  function Leading(s: seq<real>, d: seq<real>, p: seq<real>, sal: seq<real>): seq<Line>
    requires |d| == |s| && |p| == |s|
  {
    [Line("Sales", s), Line("Deferred Revenue", d), Line("Purchase", p),
     Line("Gross Profit", GrossProfitRow(s, d, p)), Line("Salary & Incentives", sal)]
  }

  predicate Rows(lines: seq<Line>, n: nat) {
    forall k :: 0 <= k < |lines| ==> |lines[k].values| == n
  }

  lemma RowsConcat(a: seq<Line>, b: seq<Line>, c: seq<Line>, n: nat)
    requires Rows(a, n) && Rows(b, n) && Rows(c, n)
    ensures Rows(a + b + c, n)
  {
  }

  /** Every row up to and including TNS Expenses, or the error the Salary row raises. */
  function BaseLines(fy: FiscalYear, w: Window, sales: SalesSheet, sheets: FiscalSheets): (r: Result<seq<Line>>)
    requires WellShaped(sales, sheets)
    ensures r.Ok? ==> Rows(r.value, |sales.domains|)
  {
    var doms := sales.domains;
    var s := SalesRow(fy, w, sales);
    var sal := SalaryRow(fy, w, sheets.salary);
    if |sal| != |doms| then Err(SalaryWidthMismatch(|sal|, |doms|))
    else
      var d := DeferredRow(DeferredTotal(fy, w, sheets.deferred, sheets.deferred.records), doms);
      var p := PurchaseRow(w, sheets.purchases, doms);
      var cols := ExpenseColumnsFor(fy, w, sheets.salary, sheets.expenses);
      var exp := ExpenseLines(Categories(sheets.expenses.lines), sheets.expenses, cols, s);
      var tns := if sheets.tns.Some? then [Line("TNS Expenses", TnsRow(fy, w, sheets.tns.value, doms))] else [];
      RowsConcat(Leading(s, d, p, sal), exp, tns, |doms|);
      Ok(Leading(s, d, p, sal) + exp + tns)
  }

  function NumCells(vs: seq<real>): (cs: seq<Cell>)
    ensures |cs| == |vs| && forall k :: 0 <= k < |vs| ==> cs[k] == Num(vs[k])
  {
    seq(|vs|, k requires 0 <= k < |vs| => Num(vs[k]))
  }

  function ToRows(lines: seq<Line>): (rows: seq<Row>)
    ensures |rows| == |lines|
    ensures forall k :: 0 <= k < |lines| ==> rows[k] == Row(lines[k].name, NumCells(lines[k].values))
  {
    seq(|lines|, k requires 0 <= k < |lines| => Row(lines[k].name, NumCells(lines[k].values)))
  }

  /** Column d summed over the given rows. */
  function ColumnSum(lines: seq<Line>, d: nat): real
    requires forall k :: 0 <= k < |lines| ==> d < |lines[k].values|
  {
    if lines == [] then 0.0 else ColumnSum(lines[..|lines| - 1], d) + lines[|lines| - 1].values[d]
  }

  /** Gross Profit minus every row from Salary & Incentives to the end. */
  function NetProfitValues(lines: seq<Line>, g: nat, s: nat, n: nat): (row: seq<real>)
    requires Rows(lines, n) && g < |lines| && s <= |lines|
    ensures |row| == n
  {
    seq(n, d requires 0 <= d < n => lines[g].values[d] - ColumnSum(lines[s..], d))
  }

  /** Appends Net Profit, finding Gross Profit and Salary & Incentives by name. */
  function WithNetProfit(lines: seq<Line>, n: nat): (r: Result<seq<Line>>)
    requires Rows(lines, n)
    ensures r.Ok? ==> Rows(r.value, n)
  {
    var rows := ToRows(lines);
    match FindRow(rows, "Gross Profit")
    case None => Err(MissingRow("Gross Profit"))
    case Some(g) =>
      match FindRow(rows, "Salary & Incentives")
      case None => Err(MissingRow("Salary & Incentives"))
      case Some(s) => Ok(lines + [Line("Net Profit", NetProfitValues(lines, g, s, n))])
  }

  // ---- Net Profit % ------------------------------------------------------------------

  /** One Net Profit % value: np × 100 / s, or 0 when the sales cell is 0 or either cell
      cannot be read as a number (the "0.00%" fallback). */
  function PercentOf(np: Cell, s: Cell): (pct: real)
    ensures CellFloat(s) == Some(0.0) || CellFloat(s).None? ==> pct == 0.0
    ensures CellFloat(np).None? ==> pct == 0.0
    ensures CellFloat(s).Some? && CellFloat(s).value != 0.0 && CellFloat(np).Some? ==>
      pct == PercentValue(CellFloat(np).value, CellFloat(s).value)
  {
    match CellFloat(s)
    case None => 0.0
    case Some(sv) =>
      if sv == 0.0 then 0.0
      else match CellFloat(np)
        case None => 0.0
        case Some(nv) => PercentValue(nv, sv)
  }

  /** `float(np) * 100 / float(s)` on a non-zero sales value. */
  function PercentValue(nv: real, sv: real): (pct: real)
    requires sv != 0.0
    ensures pct * sv == nv * 100.0
  {
    nv * 100.0 / sv
  }

  /** `zip(net_profit_row_vals, sales_row)`: as many values as the shorter row has. */
  function PercentCells(np: seq<Cell>, s: seq<Cell>): (r: seq<Cell>)
    ensures |r| == if |np| < |s| then |np| else |s|
  {
    var n := if |np| < |s| then |np| else |s|;
    seq(n, k requires 0 <= k < n => Percent(PercentOf(np[k], s[k])))
  }

  /** Pads with '' up to n cells, or cuts down to n. */
  function FitToWidth(cells: seq<Cell>, n: nat): (r: seq<Cell>)
    ensures |r| == n
    ensures forall k :: 0 <= k < n && k < |cells| ==> r[k] == cells[k]
    ensures forall k :: |cells| <= k < n ==> r[k] == Text("")
  {
    if |cells| >= n then cells[..n] else cells + seq(n - |cells|, k => Text(""))
  }

  /** The Net Profit % row, or `None` when Sales or Net Profit cannot be found (the
      exception is caught and no row is added). */
  function PercentRow(t: Table): Option<Row> {
    match FindRow(t.rows, "Sales")
    case None => None
    case Some(si) =>
      match FindRow(t.rows, "Net Profit")
      case None => None
      case Some(ni) =>
        Some(Row("Net Profit %", FitToWidth(PercentCells(t.rows[ni].cells, t.rows[si].cells), |t.columns|)))
  }

  /** Drops any earlier Net Profit % row, then appends a fresh one. */
  function WithPercentRow(t: Table): (r: Table)
    requires Rectangular(t)
    ensures Rectangular(r) && r.columns == t.columns
  {
    var kept := WithoutLabel(t.rows, "Net Profit %");
    var base := Table(t.columns, kept);
    match PercentRow(base)
    case None => base
    case Some(row) => Table(t.columns, kept + [row])
  }

  // ---- the whole pipeline ------------------------------------------------------------

  /** The matrix before its numbers are turned into text. */
  function Assembled(fy: FiscalYear, w: Window, sales: SalesSheet, sheets: FiscalSheets): (r: Result<Table>)
    requires WellShaped(sales, sheets)
    ensures r.Ok? ==> Rectangular(r.value)
  {
    match BaseLines(fy, w, sales, sheets)
    case Err(e) => Err(e)
    case Ok(base) =>
      match WithNetProfit(base, |sales.domains|)
      case Err(e) => Err(e)
      case Ok(lines) => Ok(WithPercentRow(WithTotal(Table(sales.domains, ToRows(lines)))))
  }

  /** `format_indian_number` on a number already cut to an integer: the dashboard's
      grouping, or the corrected one that keeps the sign out of the groups. */
  function FormatNumber(fy: FiscalYear, n: int): (out: string)
    ensures ParseNum(Text(out)) == n
    ensures !fy.asWritten ==> forall g :: g in SplitOnCommas(out) ==> HasDigit(g)
  {
    if fy.asWritten then
      ParseFormatRoundTrip(n);
      IndianFormat(n)
    else
      SignedIndianFormat(n)
  }

  /** `format_indian_number` on a matrix cell: a number is cut to an integer and grouped;
      text (the '' padding, the Net Profit % strings) is left alone. */
  function FormatCell(fy: FiscalYear, c: Cell): (r: Cell)
    ensures c.Num? ==> r == Text(FormatNumber(fy, TruncateToInt(c.value)))
    ensures !c.Num? ==> r == c
  {
    match c
    case Num(v) => Text(FormatNumber(fy, TruncateToInt(v)))
    case _ => c
  }

  function Formatted(fy: FiscalYear, t: Table): (r: Table)
    ensures r.columns == t.columns && |r.rows| == |t.rows|
    ensures forall i :: 0 <= i < |t.rows| ==>
      r.rows[i].name == t.rows[i].name && |r.rows[i].cells| == |t.rows[i].cells| &&
      forall j :: 0 <= j < |t.rows[i].cells| ==> r.rows[i].cells[j] == FormatCell(fy, t.rows[i].cells[j])
  {
    Table(t.columns, seq(|t.rows|, i requires 0 <= i < |t.rows| =>
      Row(t.rows[i].name, seq(|t.rows[i].cells|, j requires 0 <= j < |t.rows[i].cells| => FormatCell(fy, t.rows[i].cells[j])))))
  }

  /** The matrix one fiscal year's section displays for a window. */
  function FiscalMatrix(fy: FiscalYear, w: Window, sales: SalesSheet, sheets: FiscalSheets): Result<Table>
    requires WellShaped(sales, sheets)
  {
    match Assembled(fy, w, sales, sheets)
    case Err(e) => Err(e)
    case Ok(t) => Ok(Formatted(fy, t))
  }

  /** The expense loop: appends one row per category to the table. */
  method AppendExpenseRows(tbl: seq<Line>, cats: seq<string>, e: ExpenseSheet, cols: ExpenseColumns, sales: seq<real>)
    returns (out: seq<Line>)
    requires ExpenseWellShaped(e) && (cols.OneColumn? ==> cols.p < 12)
    ensures out == tbl + ExpenseLines(cats, e, cols, sales)
  {
    out := tbl;
    var k := 0;
    while k < |cats|
      invariant 0 <= k <= |cats|
      invariant out == tbl + ExpenseLines(cats[..k], e, cols, sales)
    {
      var line := Line(cats[k], ExpenseRow(CategoryTotal(e.lines, cats[k], cols), sales));
      assert out + [line] == tbl + ExpenseLines(cats[..k + 1], e, cols, sales) by {
        ExpenseLinesStep(cats, k, e, cols, sales);
        AppendAssociates(tbl, ExpenseLines(cats[..k], e, cols, sales), [line]);
      }
      out := out + [line];
      k := k + 1;
    }
    assert cats[..|cats|] == cats;
  }

  /** One more category adds its row at the end. */
  lemma ExpenseLinesStep(cats: seq<string>, k: nat, e: ExpenseSheet, cols: ExpenseColumns, sales: seq<real>)
    requires ExpenseWellShaped(e) && (cols.OneColumn? ==> cols.p < 12) && k < |cats|
    ensures ExpenseLines(cats[..k + 1], e, cols, sales) ==
      ExpenseLines(cats[..k], e, cols, sales) + [Line(cats[k], ExpenseRow(CategoryTotal(e.lines, cats[k], cols), sales))]
  {
    assert cats[..k + 1][..k] == cats[..k];
  }

  /** The rows up to TNS Expenses, grown one `pd.concat` at a time. */
  method BuildBaseLines(fy: FiscalYear, w: Window, sales: SalesSheet, sheets: FiscalSheets)
    returns (r: Result<seq<Line>>)
    requires WellShaped(sales, sheets)
    ensures r == BaseLines(fy, w, sales, sheets)
  {
    var doms := sales.domains;
    var s := SalesRow(fy, w, sales);
    var d := DeferredRow(DeferredTotal(fy, w, sheets.deferred, sheets.deferred.records), doms);
    var p := PurchaseRow(w, sheets.purchases, doms);
    var sal := AllocateSalary(fy, w, sheets.salary);
    if |sal| != |doms| {
      return Err(SalaryWidthMismatch(|sal|, |doms|));
    }
    var tbl := Leading(s, d, p, sal);
    var e := sheets.expenses;
    var cols := ExpenseColumnsFor(fy, w, sheets.salary, e);
    tbl := AppendExpenseRows(tbl, Categories(e.lines), e, cols, s);
    if sheets.tns.Some? {
      var tnsValues := AllocateTns(fy, w, sheets.tns.value, doms);
      tbl := tbl + [Line("TNS Expenses", tnsValues)];
    } else {
      assert tbl == tbl + [];
    }
    r := Ok(tbl);
  }

  /** The dashboard's construction: the rows, Net Profit, the Total column inserted into
      the frame in place, Net Profit %, and the formatting. */
  method BuildFiscalMatrix(fy: FiscalYear, w: Window, sales: SalesSheet, sheets: FiscalSheets)
    returns (r: Result<Table>)
    requires WellShaped(sales, sheets)
    ensures r == FiscalMatrix(fy, w, sales, sheets)
  {
    var base := BuildBaseLines(fy, w, sales, sheets);
    if base.Err? {
      return Err(base.error);
    }
    var withNet := WithNetProfit(base.value, |sales.domains|);
    if withNet.Err? {
      return Err(withNet.error);
    }
    var frame := new Frame(Table(sales.domains, ToRows(withNet.value)));
    frame.InsertTotalColumn();
    var t := WithPercentRow(frame.Value());
    r := Ok(Formatted(fy, t));
  }
}
