/** How the dashboard spreads costs over the business domains: salary by allocation
    percentages, general expenses by each domain's share of sales, and TNS expenses by
    per-line percentages. Sheets arrive already read; an empty (NaN) cell is `None` and
    counts as 0 (`fillna(0)`), as does a TNS amount or percentage that `float` cannot
    read (the `except: 0.0` around it). */
module Allocation {
  import opened Cells
  import opened FiscalCalendar

  function SumReals(xs: seq<real>): real {
    if xs == [] then 0.0 else SumReals(xs[..|xs| - 1]) + xs[|xs| - 1]
  }

  lemma {:induction false} SumScaled(xs: seq<real>, ys: seq<real>, c: real)
    requires |ys| == |xs| && forall i :: 0 <= i < |xs| ==> ys[i] == c * xs[i]
    ensures SumReals(ys) == c * SumReals(xs)
    decreases |xs|
  {
    if xs != [] {
      var n := |xs| - 1;
      SumScaled(xs[..n], ys[..n], c);
    }
  }

  /** The first position of x in xs. */
  function Position<T(==)>(xs: seq<T>, x: T): (r: Option<nat>)
    ensures r.Some? ==> r.value < |xs| && xs[r.value] == x
    ensures r.None? <==> x !in xs
  {
    if xs == [] then None
    else if xs[0] == x then Some(0)
    else match Position(xs[1..], x)
      case Some(k) => Some(k + 1)
      case None => None
  }

  // ---- Salary & Incentives -------------------------------------------------------

  /** The domains salary is allocated to, in the order the allocation columns are read
      ("Consulting Services & Project work" is not one of them). */
  const SalaryDomainOrder: seq<string> :=
    ["Training Business", "Tech Assist Recruitment", "WhatsApp API Business", "G-Suite Business", "Other Services"]

  /** One employee line: the twelve monthly salaries and, per allocation column, the
      share of the salary that goes to that domain. */
  datatype SalaryLine = SalaryLine(monthly: seq<Option<real>>, shares: map<string, Option<real>>)

  /** The "Monthly Salary" sheet: the headers of the twelve month columns (D to O; `None`
      when a header is not a date), the stripped header names, and the employee lines. */
  datatype SalarySheet = SalarySheet(monthHeaders: seq<Option<Date>>, headers: seq<string>, lines: seq<SalaryLine>)

  predicate SalaryWellShaped(s: SalarySheet) {
    |s.monthHeaders| == 12 && forall k :: 0 <= k < |s.lines| ==> |s.lines[k].monthly| == 12
  }

  function FilterIn(xs: seq<string>, keep: seq<string>): (r: seq<string>)
    ensures forall x :: x in r <==> x in xs && x in keep
    ensures |r| <= |xs|
  {
    if xs == [] then []
    else FilterIn(xs[..|xs| - 1], keep) + (if xs[|xs| - 1] in keep then [xs[|xs| - 1]] else [])
  }

  /** Where x stands in xs, for an x known to be there. */
  function Rank<T(==)>(xs: seq<T>, x: T): nat
    requires x in xs
  {
    Position(xs, x).value
  }

  /** A position in the first n elements of xs is also its position in xs. */
  lemma {:induction false} PositionInPrefix<T>(xs: seq<T>, n: nat, x: T)
    requires n <= |xs| && x in xs[..n]
    ensures Position(xs, x) == Position(xs[..n], x)
    decreases n
  {
    if xs[0] != x {
      assert xs[..n][1..] == xs[1..][..n - 1];
      PositionInPrefix(xs[1..], n - 1, x);
    }
  }

  lemma RankInPrefix<T>(xs: seq<T>, n: nat, x: T)
    requires n <= |xs| && x in xs[..n]
    ensures x in xs && Rank(xs, x) == Rank(xs[..n], x) < n
  {
    PositionInPrefix(xs, n, x);
  }

  /** In a list without repeats, the last element stands last. */
  lemma RankOfLast<T>(xs: seq<T>)
    requires xs != [] && forall i, j :: 0 <= i < j < |xs| ==> xs[i] != xs[j]
    ensures Rank(xs, xs[|xs| - 1]) == |xs| - 1
  {
    var p := Rank(xs, xs[|xs| - 1]);
    if p < |xs| - 1 { assert false; }
  }

  /** The elements of r all occur in xs, and in the same order. */
  predicate InOrderOf<T(==)>(r: seq<T>, xs: seq<T>) {
    && (forall x :: x in r ==> x in xs)
    && forall i, j :: 0 <= i < j < |r| ==> Rank(xs, r[i]) < Rank(xs, r[j])
  }

  /** Filtering keeps the kept elements in the order of the list filtered. */
  lemma {:induction false} FilterInOrdered(xs: seq<string>, keep: seq<string>)
    requires forall i, j :: 0 <= i < j < |xs| ==> xs[i] != xs[j]
    ensures InOrderOf(FilterIn(xs, keep), xs)
    decreases |xs|
  {
    if xs != [] {
      var n := |xs| - 1;
      var front := xs[..n];
      var r0 := FilterIn(front, keep);
      var r := FilterIn(xs, keep);
      assert r == r0 + (if xs[n] in keep then [xs[n]] else []);
      FilterInOrdered(front, keep);
      forall i, j | 0 <= i < j < |r|
        ensures Rank(xs, r[i]) < Rank(xs, r[j])
      {
        assert r[i] == r0[i] && r0[i] in front;
        RankInPrefix(xs, n, r[i]);
        if j < |r0| {
          assert r[j] == r0[j] && r0[j] in front;
          RankInPrefix(xs, n, r[j]);
          assert Rank(front, r0[i]) < Rank(front, r0[j]);
        } else {
          assert r[j] == xs[n];
          RankOfLast(xs);
        }
      }
    }
  }

  /** The allocation columns present in the sheet, sorted by `SalaryDomainOrder`. */
  function AllocationColumns(s: SalarySheet): (cols: seq<string>)
    ensures forall d :: d in cols <==> d in SalaryDomainOrder && d in s.headers
    ensures forall i, j :: 0 <= i < j < |cols| ==> Rank(SalaryDomainOrder, cols[i]) < Rank(SalaryDomainOrder, cols[j])
    ensures |cols| <= |SalaryDomainOrder|
  {
    var cols := FilterIn(SalaryDomainOrder, s.headers);
    FilterInOrdered(SalaryDomainOrder, s.headers);
    cols
  }

  /** A line's share for a domain; a missing or empty cell is 0. */
  function Share(l: SalaryLine, dom: string): real {
    if dom in l.shares then Fill(l.shares[dom]) else 0.0
  }

  /** One employee's salary for month m times their share of the domain. */
  function Weighted(l: SalaryLine, m: nat, dom: string): real
    requires m < |l.monthly|
  {
    Fill(l.monthly[m]) * Share(l, dom)
  }

  /** `df[m].fillna(0) * df[dom].fillna(0)`: the element-wise products, line by line. */
  function Weights(lines: seq<SalaryLine>, m: nat, dom: string): (ws: seq<real>)
    requires forall k :: 0 <= k < |lines| ==> m < |lines[k].monthly|
    ensures |ws| == |lines| && forall k :: 0 <= k < |lines| ==> ws[k] == Weighted(lines[k], m, dom)
  {
    seq(|lines|, k requires 0 <= k < |lines| => Weighted(lines[k], m, dom))
  }

  /** `(df[m].fillna(0) * df[dom].fillna(0)).sum()`: month m's salaries weighted by the
      domain's shares. */
  function MonthProduct(lines: seq<SalaryLine>, m: nat, dom: string): real
    requires forall k :: 0 <= k < |lines| ==> m < |lines[k].monthly|
  {
    SumReals(Weights(lines, m, dom))
  }

  /** The weighted salary of each of the first `months` month columns. */
  function MonthTotals(lines: seq<SalaryLine>, months: nat, dom: string): (ts: seq<real>)
    requires forall k :: 0 <= k < |lines| ==> months <= |lines[k].monthly|
    ensures |ts| == months && forall i :: 0 <= i < months ==> ts[i] == MonthProduct(lines, i, dom)
  {
    seq(months, i requires 0 <= i < months => MonthProduct(lines, i, dom))
  }

  /** The weighted salaries of the first `months` month columns, added up. */
  function YearProduct(lines: seq<SalaryLine>, months: nat, dom: string): real
    requires forall k :: 0 <= k < |lines| ==> months <= |lines[k].monthly|
  {
    SumReals(MonthTotals(lines, months, dom))
  }

  /** One more month column adds that month's weighted salary. */
  lemma YearProductStep(lines: seq<SalaryLine>, months: nat, dom: string)
    requires forall k :: 0 <= k < |lines| ==> months < |lines[k].monthly|
    ensures YearProduct(lines, months + 1, dom) == YearProduct(lines, months, dom) + MonthProduct(lines, months, dom)
  {
    assert MonthTotals(lines, months + 1, dom)[..months] == MonthTotals(lines, months, dom);
  }

  /** The salary column of a single month: the first month header equal to its date. */
  function SalaryMonthColumn(fy: FiscalYear, i: FiscalMonth, s: SalarySheet): (r: Option<nat>)
    ensures r.Some? ==> r.value < |s.monthHeaders| && s.monthHeaders[r.value] == Some(SalaryColumnDate(fy, i))
    ensures r.None? <==> Some(SalaryColumnDate(fy, i)) !in s.monthHeaders
  {
    Position(s.monthHeaders, Some(SalaryColumnDate(fy, i)))
  }

  /** The Salary & Incentives values, one per allocation column. */
  function SalaryRow(fy: FiscalYear, w: Window, s: SalarySheet): (row: seq<real>)
    requires SalaryWellShaped(s)
    ensures |row| == |AllocationColumns(s)|
  {
    var cols := AllocationColumns(s);
    match w
    case WholeYear => seq(|cols|, k requires 0 <= k < |cols| => YearProduct(s.lines, 12, cols[k]))
    case SingleMonth(i) =>
      match SalaryMonthColumn(fy, i, s)
      case None => seq(|cols|, k => 0.0)
      case Some(p) => seq(|cols|, k requires 0 <= k < |cols| => MonthProduct(s.lines, p, cols[k]))
  }

  /** The salary allocation loops: per allocation column, the total over the window's
      month columns. */
  method AllocateSalary(fy: FiscalYear, w: Window, s: SalarySheet) returns (row: seq<real>)
    requires SalaryWellShaped(s)
    ensures row == SalaryRow(fy, w, s)
  {
    var cols := AllocationColumns(s);
    var monthCol := if w.SingleMonth? then SalaryMonthColumn(fy, w.month, s) else None;
    row := [];
    var k := 0;
    while k < |cols|
      invariant 0 <= k <= |cols| && |row| == k
      invariant forall j :: 0 <= j < k ==> row[j] == SalaryRow(fy, w, s)[j]
    {
      var total := 0.0;
      if w.WholeYear? {
        var m := 0;
        while m < 12
          invariant 0 <= m <= 12
          invariant total == YearProduct(s.lines, m, cols[k])
        {
          YearProductStep(s.lines, m, cols[k]);
          total := total + MonthProduct(s.lines, m, cols[k]);
          m := m + 1;
        }
      } else if monthCol.Some? {
        total := MonthProduct(s.lines, monthCol.value, cols[k]);
      }
      assert total == SalaryRow(fy, w, s)[k] by {
        SalaryRowAt(fy, w, s, k);
      }
      row := row + [total];
      k := k + 1;
    }
  }

  /** One entry of the Salary & Incentives row. */
  lemma SalaryRowAt(fy: FiscalYear, w: Window, s: SalarySheet, k: nat)
    requires SalaryWellShaped(s) && k < |AllocationColumns(s)|
    ensures var dom := AllocationColumns(s)[k];
      SalaryRow(fy, w, s)[k] ==
        if w.WholeYear? then YearProduct(s.lines, 12, dom)
        else match SalaryMonthColumn(fy, w.month, s)
          case None => 0.0
          case Some(p) => MonthProduct(s.lines, p, dom)
  {
  }

  /** With no salary column for the chosen month, every domain gets 0. */
  lemma SalaryWithoutMonthColumn(fy: FiscalYear, i: FiscalMonth, s: SalarySheet)
    requires SalaryWellShaped(s) && Some(SalaryColumnDate(fy, i)) !in s.monthHeaders
    ensures forall k :: 0 <= k < |SalaryRow(fy, SingleMonth(i), s)| ==> SalaryRow(fy, SingleMonth(i), s)[k] == 0.0
  {
  }

  /** The month columns hold the twelve fiscal months in order (April first). */
  predicate FiscalOrderHeaders(fy: FiscalYear, s: SalarySheet)
    requires SalaryWellShaped(s)
  {
    forall i: FiscalMonth :: s.monthHeaders[i] == Some(SalaryColumnDate(fy, i))
  }

  /** With the month columns in fiscal order, month i's column is column i. */
  lemma {:induction false} SalaryMonthColumnInOrder(fy: FiscalYear, i: FiscalMonth, s: SalarySheet)
    requires SalaryWellShaped(s) && FiscalOrderHeaders(fy, s)
    ensures SalaryMonthColumn(fy, i, s) == Some(i)
  {
    assert s.monthHeaders[i] == Some(SalaryColumnDate(fy, i));
    var p := SalaryMonthColumn(fy, i, s).value;
    var q: FiscalMonth := p;
    assert s.monthHeaders[q] == Some(SalaryColumnDate(fy, q));
    assert CalendarMonthOf(q) == CalendarMonthOf(i);
  }

  /** The single-month salary values of the first m fiscal months, added up. */
  function SalaryMonths(fy: FiscalYear, s: SalarySheet, k: nat, m: nat): real
    requires SalaryWellShaped(s) && k < |AllocationColumns(s)| && m <= 12
  {
    if m == 0 then 0.0 else SalaryMonths(fy, s, k, m - 1) + SalaryRow(fy, SingleMonth(m - 1), s)[k]
  }

  /** With the month columns in fiscal order, the twelve single-month Salary & Incentives
      values of a domain add up to its "All" value. */
  lemma SalaryMonthsAddUp(fy: FiscalYear, s: SalarySheet, k: nat)
    requires SalaryWellShaped(s) && FiscalOrderHeaders(fy, s) && k < |AllocationColumns(s)|
    ensures SalaryMonths(fy, s, k, 12) == SalaryRow(fy, WholeYear, s)[k]
  {
    SalaryMonthsPrefix(fy, s, k, 12);
    SalaryRowAt(fy, WholeYear, s, k);
  }

  /** The first m single-month values add up to the salary product over the first m
      month columns. */
  lemma {:induction false} SalaryMonthsPrefix(fy: FiscalYear, s: SalarySheet, k: nat, m: nat)
    requires SalaryWellShaped(s) && FiscalOrderHeaders(fy, s) && k < |AllocationColumns(s)| && m <= 12
    ensures SalaryMonths(fy, s, k, m) == YearProduct(s.lines, m, AllocationColumns(s)[k])
  {
    var dom := AllocationColumns(s)[k];
    if m == 0 {
      assert MonthTotals(s.lines, 0, dom) == [];
    } else {
      SalaryMonthsPrefix(fy, s, k, m - 1);
      SalaryMonthEntry(fy, s, k, m - 1);
      YearProductStep(s.lines, m - 1, dom);
    }
  }

  /** With the month columns in fiscal order, month i's value is its month product. */
  lemma SalaryMonthEntry(fy: FiscalYear, s: SalarySheet, k: nat, i: FiscalMonth)
    requires SalaryWellShaped(s) && FiscalOrderHeaders(fy, s) && k < |AllocationColumns(s)|
    ensures SalaryRow(fy, SingleMonth(i), s)[k] == MonthProduct(s.lines, i, AllocationColumns(s)[k])
  {
    SalaryMonthColumnInOrder(fy, i, s);
    SalaryRowAt(fy, SingleMonth(i), s, k);
  }

  /** Lines that differ only in the domain's shares, each multiplied by c. */
  predicate SharesScaled(scaled: seq<SalaryLine>, lines: seq<SalaryLine>, dom: string, c: real) {
    |scaled| == |lines| &&
    forall k :: 0 <= k < |lines| ==>
      scaled[k].monthly == lines[k].monthly && Share(scaled[k], dom) == c * Share(lines[k], dom)
  }

  /** A month's allocation is linear in the domain's percentages. */
  lemma {:induction false} MonthProductScales(scaled: seq<SalaryLine>, lines: seq<SalaryLine>, m: nat, dom: string, c: real)
    requires forall k :: 0 <= k < |lines| ==> m < |lines[k].monthly|
    requires SharesScaled(scaled, lines, dom, c)
    ensures MonthProduct(scaled, m, dom) == c * MonthProduct(lines, m, dom)
  {
    var ws := Weights(lines, m, dom);
    var ws' := Weights(scaled, m, dom);
    forall k | 0 <= k < |lines|
      ensures ws'[k] == c * ws[k]
    {
      WeightedScales(scaled[k], lines[k], m, dom, c);
    }
    SumScaled(ws, ws', c);
  }

  lemma WeightedScales(scaled: SalaryLine, line: SalaryLine, m: nat, dom: string, c: real)
    requires m < |line.monthly| && scaled.monthly == line.monthly
    requires Share(scaled, dom) == c * Share(line, dom)
    ensures Weighted(scaled, m, dom) == c * Weighted(line, m, dom)
  {
  }

  /** So is the whole-year allocation. */
  lemma {:induction false} YearProductScales(scaled: seq<SalaryLine>, lines: seq<SalaryLine>, months: nat, dom: string, c: real)
    requires forall k :: 0 <= k < |lines| ==> months <= |lines[k].monthly|
    requires SharesScaled(scaled, lines, dom, c)
    ensures YearProduct(scaled, months, dom) == c * YearProduct(lines, months, dom)
  {
    var ts, ts' := MonthTotals(lines, months, dom), MonthTotals(scaled, months, dom);
    assert SumReals(ts') == c * SumReals(ts) by {
      MonthTotalsScale(scaled, lines, months, dom, c);
      SumScaled(ts, ts', c);
    }
  }

  lemma MonthTotalsScale(scaled: seq<SalaryLine>, lines: seq<SalaryLine>, months: nat, dom: string, c: real)
    requires forall k :: 0 <= k < |lines| ==> months <= |lines[k].monthly|
    requires SharesScaled(scaled, lines, dom, c)
    ensures |MonthTotals(scaled, months, dom)| == |MonthTotals(lines, months, dom)|
    ensures forall i :: 0 <= i < months ==> MonthTotals(scaled, months, dom)[i] == c * MonthTotals(lines, months, dom)[i]
  {
    forall i | 0 <= i < months
      ensures MonthTotals(scaled, months, dom)[i] == c * MonthTotals(lines, months, dom)[i]
    {
      MonthProductScales(scaled, lines, i, dom, c);
    }
  }

  /** Allocations add up over the lines: two groups of employees together are allocated
      the sum of what each is allocated. */
  lemma {:induction false} MonthProductAppend(a: seq<SalaryLine>, b: seq<SalaryLine>, m: nat, dom: string)
    requires forall k :: 0 <= k < |a| ==> m < |a[k].monthly|
    requires forall k :: 0 <= k < |b| ==> m < |b[k].monthly|
    ensures MonthProduct(a + b, m, dom) == MonthProduct(a, m, dom) + MonthProduct(b, m, dom)
  {
    assert Weights(a + b, m, dom) == Weights(a, m, dom) + Weights(b, m, dom);
    SumRealsAppend(Weights(a, m, dom), Weights(b, m, dom));
  }

  lemma {:induction false} SumRealsAppend(xs: seq<real>, ys: seq<real>)
    ensures SumReals(xs + ys) == SumReals(xs) + SumReals(ys)
    decreases |ys|
  {
    if ys == [] {
      assert xs + ys == xs;
    } else {
      var n := |ys| - 1;
      assert (xs + ys)[..|xs + ys| - 1] == xs + ys[..n];
      SumRealsAppend(xs, ys[..n]);
    }
  }

  /** A domain no line gives a share to is allocated nothing. */
  lemma {:induction false} MonthProductNoShare(lines: seq<SalaryLine>, m: nat, dom: string)
    requires forall k :: 0 <= k < |lines| ==> m < |lines[k].monthly|
    requires forall k :: 0 <= k < |lines| ==> Share(lines[k], dom) == 0.0
    ensures MonthProduct(lines, m, dom) == 0.0
  {
    var ws := Weights(lines, m, dom);
    SumScaled(ws, ws, 0.0);
  }

  // ---- expenses split by sales ratio ----------------------------------------------

  datatype ExpenseLine = ExpenseLine(category: Option<string>, monthly: seq<Option<real>>)

  /** The "Expenses" sheet: the headers of the twelve month columns (C to N) and its lines. */
  datatype ExpenseSheet = ExpenseSheet(monthHeaders: seq<Option<Date>>, lines: seq<ExpenseLine>)

  predicate ExpenseWellShaped(e: ExpenseSheet) {
    |e.monthHeaders| == 12 && forall k :: 0 <= k < |e.lines| ==> |e.lines[k].monthly| == 12
  }

  predicate NoDuplicates(xs: seq<string>) {
    forall i, j :: 0 <= i < j < |xs| ==> xs[i] != xs[j]
  }

  /** `df["Expenses"].dropna().unique()`: each category once, in order of first
      appearance. */
  function Categories(lines: seq<ExpenseLine>): (cs: seq<string>)
    ensures NoDuplicates(cs)
    ensures forall c :: c in cs <==> exists k :: 0 <= k < |lines| && lines[k].category == Some(c)
  {
    if lines == [] then []
    else
      var front := Categories(lines[..|lines| - 1]);
      var last := lines[|lines| - 1].category;
      assert forall k :: 0 <= k < |lines| - 1 ==> lines[..|lines| - 1][k] == lines[k];
      if last.Some? && last.value !in front then front + [last.value] else front
  }

  /** Position of the first line of a category (|lines| when there is none). */
  function FirstLine(lines: seq<ExpenseLine>, c: string): (k: nat)
    ensures k <= |lines|
    ensures k < |lines| ==> lines[k].category == Some(c)
    ensures forall j :: 0 <= j < k ==> lines[j].category != Some(c)
  {
    if lines == [] then 0
    else if lines[0].category == Some(c) then 0
    else 1 + FirstLine(lines[1..], c)
  }

  lemma {:induction false} FirstLineOfPrefix(lines: seq<ExpenseLine>, n: nat, c: string)
    requires n <= |lines|
    ensures FirstLine(lines[..n], c) < n ==> FirstLine(lines, c) == FirstLine(lines[..n], c)
    ensures FirstLine(lines[..n], c) == n ==> FirstLine(lines, c) >= n
  {
    var a := FirstLine(lines, c);
    var b := FirstLine(lines[..n], c);
    if b < n {
      assert lines[b] == lines[..n][b];
    }
  }

  /** The categories come in the order their first lines do. */
  lemma {:induction false} CategoriesInEncounterOrder(lines: seq<ExpenseLine>)
    ensures var cs := Categories(lines);
      forall i, j :: 0 <= i < j < |cs| ==> FirstLine(lines, cs[i]) < FirstLine(lines, cs[j])
    decreases |lines|
  {
    if lines != [] {
      var n := |lines| - 1;
      var front := lines[..n];
      CategoriesInEncounterOrder(front);
      var fcs := Categories(front);
      forall i | 0 <= i < |fcs|
        ensures FirstLine(lines, fcs[i]) == FirstLine(front, fcs[i]) < n
      {
        CategoryHasFirstLine(front, fcs[i]);
        FirstLineOfPrefix(lines, n, fcs[i]);
      }
      var cs := Categories(lines);
      if cs != fcs {
        var c := lines[n].category.value;
        assert cs == fcs + [c];
        FirstLineOfPrefix(lines, n, c);
        CategoryFresh(front, c);
      }
    }
  }

  lemma {:induction false} CategoryHasFirstLine(lines: seq<ExpenseLine>, c: string)
    requires c in Categories(lines)
    ensures FirstLine(lines, c) < |lines|
  {
    var k :| 0 <= k < |lines| && lines[k].category == Some(c);
  }

  lemma {:induction false} CategoryFresh(lines: seq<ExpenseLine>, c: string)
    requires c !in Categories(lines)
    ensures FirstLine(lines, c) == |lines|
  {
  }

  /** Which month columns an expense total reads. */
  datatype ExpenseColumns = AllMonths | OneColumn(p: nat) | NoColumn

  /** A header that is a date in the same calendar month and year as `target`. */
  predicate SameMonth(h: Option<Date>, target: Date) {
    h.Some? && h.value.month == target.month && h.value.year == target.year
  }

  /** The first header in the same calendar month and year as `target`. */
  function SameMonthColumn(headers: seq<Option<Date>>, target: Date): (r: Option<nat>)
    ensures r.Some? ==> r.value < |headers| && SameMonth(headers[r.value], target)
    ensures r.Some? ==> forall k :: 0 <= k < r.value ==> !SameMonth(headers[k], target)
    ensures r.None? <==> forall k :: 0 <= k < |headers| ==> !SameMonth(headers[k], target)
  {
    if headers == [] then None
    else if SameMonth(headers[0], target) then Some(0)
    else match SameMonthColumn(headers[1..], target)
      case Some(k) => Some(k + 1)
      case None => None
  }

  /** The expense month columns for a window. For a single month, FY 2025-26 first drops
      the month's date when the salary sheet has no such column, and then finds no
      expense column either; FY 2024-25 recomputes the date and always looks. */
  function ExpenseColumnsFor(fy: FiscalYear, w: Window, salary: SalarySheet, e: ExpenseSheet): (r: ExpenseColumns)
    ensures w.WholeYear? <==> r.AllMonths?
    ensures r.OneColumn? ==>
      && w.SingleMonth? && r.p < |e.monthHeaders|
      && SameMonth(e.monthHeaders[r.p], SalaryColumnDate(fy, w.month))
      && forall k :: 0 <= k < r.p ==> !SameMonth(e.monthHeaders[k], SalaryColumnDate(fy, w.month))
    ensures r.NoColumn? <==>
      && w.SingleMonth?
      && (|| (fy.expenseMonthNeedsSalaryColumn && Some(SalaryColumnDate(fy, w.month)) !in salary.monthHeaders)
          || forall k :: 0 <= k < |e.monthHeaders| ==> !SameMonth(e.monthHeaders[k], SalaryColumnDate(fy, w.month)))
  {
    match w
    case WholeYear => AllMonths
    case SingleMonth(i) =>
      var target := SalaryColumnDate(fy, i);
      if fy.expenseMonthNeedsSalaryColumn && Some(target) !in salary.monthHeaders then NoColumn
      else match SameMonthColumn(e.monthHeaders, target)
        case Some(p) => OneColumn(p)
        case None => NoColumn
  }

  function MonthsTotal(monthly: seq<Option<real>>): real {
    if monthly == [] then 0.0 else MonthsTotal(monthly[..|monthly| - 1]) + Fill(monthly[|monthly| - 1])
  }

  function LineTotal(l: ExpenseLine, cols: ExpenseColumns): real
    requires cols.OneColumn? ==> cols.p < |l.monthly|
  {
    match cols
    case AllMonths => MonthsTotal(l.monthly)
    case OneColumn(p) => Fill(l.monthly[p])
    case NoColumn => 0.0
  }

  /** `total_expense`: a category's amounts over the chosen month columns. */
  function CategoryTotal(lines: seq<ExpenseLine>, c: string, cols: ExpenseColumns): real
    requires cols.OneColumn? ==> forall k :: 0 <= k < |lines| ==> cols.p < |lines[k].monthly|
  {
    if lines == [] then 0.0
    else
      var l := lines[|lines| - 1];
      CategoryTotal(lines[..|lines| - 1], c, cols) + (if l.category == Some(c) then LineTotal(l, cols) else 0.0)
  }

  /** `sales_ratios`: each domain's share of total sales, or all zeros when total sales
      are 0. */
  function SalesRatios(sales: seq<real>): (r: seq<real>)
    ensures |r| == |sales|
  {
    var total := SumReals(sales);
    if total != 0.0 then seq(|sales|, d requires 0 <= d < |sales| => sales[d] / total)
    else seq(|sales|, d => 0.0)
  }

  /** One expense row: the category total times each domain's sales ratio. */
  function ExpenseRow(total: real, sales: seq<real>): (row: seq<real>)
    ensures |row| == |sales|
  {
    var ratios := SalesRatios(sales);
    seq(|sales|, d requires 0 <= d < |sales| => total * ratios[d])
  }

  /** With non-zero sales, each domain's part is proportional to its sales and the row
      adds up to the category total; with zero sales, every part is 0. */
  lemma {:induction false} ExpenseRowSplits(total: real, sales: seq<real>)
    ensures SumReals(sales) != 0.0 ==> SumReals(ExpenseRow(total, sales)) == total
    ensures SumReals(sales) != 0.0 ==> forall d :: 0 <= d < |sales| ==>
      ExpenseRow(total, sales)[d] * SumReals(sales) == total * sales[d]
    ensures SumReals(sales) == 0.0 ==> forall d :: 0 <= d < |sales| ==> ExpenseRow(total, sales)[d] == 0.0
  {
    var s := SumReals(sales);
    if s != 0.0 {
      var row := ExpenseRow(total, sales);
      SumScaled(sales, row, total / s);
    }
  }

  // ---- TNS expenses ----------------------------------------------------------------

  /** A TNS line: its month (when the sheet has one), its amount and its percentages in
      the domain columns I to M. */
  datatype TnsLine = TnsLine(month: Option<Date>, amount: Option<real>, shares: seq<Option<real>>)

  /** The "Expense - TNS" sheet; `shareColumns` is how many of the columns I to M exist. */
  datatype TnsSheet = TnsSheet(hasMonthColumn: bool, shareColumns: nat, lines: seq<TnsLine>)

  predicate TnsWellShaped(t: TnsSheet) {
    t.shareColumns <= 5 && forall k :: 0 <= k < |t.lines| ==> |t.lines[k].shares| == t.shareColumns
  }

  /** `df[excel_months == month_dt]`: the lines dated d, in order, each as often as it occurs. */
  function LinesDated(lines: seq<TnsLine>, d: Date): (r: seq<TnsLine>)
    ensures forall l :: l in r <==> l in lines && l.month == Some(d)
    ensures forall l :: multiset(r)[l] == if l.month == Some(d) then multiset(lines)[l] else 0
  {
    if lines == [] then []
    else
      var last := lines[|lines| - 1];
      assert lines == lines[..|lines| - 1] + [last];
      LinesDated(lines[..|lines| - 1], d) + (if last.month == Some(d) then [last] else [])
  }

  /** The TNS lines a window reads: all of them for the whole year; for a single month,
      those dated on its TNS filter date when the sheet has a Month column. */
  function TnsSelected(fy: FiscalYear, w: Window, t: TnsSheet): (r: seq<TnsLine>)
    ensures w.WholeYear? || !t.hasMonthColumn ==> r == t.lines
    ensures w.SingleMonth? && t.hasMonthColumn ==> forall l ::
      multiset(r)[l] == if l.month == Some(TnsFilterDate(fy, w.month)) then multiset(t.lines)[l] else 0
    ensures forall l :: l in r ==> l in t.lines
  {
    if w.SingleMonth? && t.hasMonthColumn then LinesDated(t.lines, TnsFilterDate(fy, w.month)) else t.lines
  }

  /** How many domains `zip(domain_cols, fy_domains)` pairs up. */
  function ZipWidth(t: TnsSheet, domains: seq<string>): (n: nat)
    ensures n <= t.shareColumns && n <= |domains|
    ensures n == t.shareColumns || n == |domains|
  {
    if t.shareColumns < |domains| then t.shareColumns else |domains|
  }

  /** Σ amount × percent over the lines, for share column k. */
  function TnsSum(lines: seq<TnsLine>, k: nat): real
    requires forall j :: 0 <= j < |lines| ==> k < |lines[j].shares|
  {
    if lines == [] then 0.0
    else
      var l := lines[|lines| - 1];
      TnsSum(lines[..|lines| - 1], k) + Fill(l.amount) * Fill(l.shares[k])
  }

  /** The TNS Expenses values, one per domain column of the matrix. */
  function TnsRow(fy: FiscalYear, w: Window, t: TnsSheet, domains: seq<string>): (row: seq<real>)
    requires TnsWellShaped(t)
    ensures |row| == |domains|
  {
    var lines := TnsSelected(fy, w, t);
    var width := ZipWidth(t, domains);
    seq(|domains|, j requires 0 <= j < |domains| =>
      if j < width then
        assert forall l :: l in lines ==> |l.shares| == t.shareColumns;
        TnsSum(lines, j)
      else 0.0)
  }

  lemma TnsRowAt(fy: FiscalYear, w: Window, t: TnsSheet, domains: seq<string>, j: nat)
    requires TnsWellShaped(t) && j < |domains|
    ensures forall l :: l in TnsSelected(fy, w, t) ==> |l.shares| == t.shareColumns
    ensures TnsRow(fy, w, t, domains)[j] ==
      if j < ZipWidth(t, domains) then TnsSum(TnsSelected(fy, w, t), j) else 0.0
  {
  }

  lemma TnsSumStep(lines: seq<TnsLine>, r: nat, k: nat)
    requires r < |lines| && forall j :: 0 <= j < |lines| ==> k < |lines[j].shares|
    ensures TnsSum(lines[..r + 1], k) == TnsSum(lines[..r], k) + Fill(lines[r].amount) * Fill(lines[r].shares[k])
  {
    assert lines[..r + 1][..r] == lines[..r];
  }

  /** The inner TNS loop: one line adds amount × percent to each paired domain. */
  method AddTnsLine(sums: map<string, real>, domains: seq<string>, width: nat, amt: real, shares: seq<Option<real>>)
    returns (out: map<string, real>)
    requires NoDuplicates(domains) && width <= |domains| && width <= |shares|
    requires forall j :: 0 <= j < |domains| ==> domains[j] in sums
    ensures forall j :: 0 <= j < |domains| ==> domains[j] in out
    ensures forall j :: 0 <= j < |domains| ==>
      out[domains[j]] == sums[domains[j]] + (if j < width then amt * Fill(shares[j]) else 0.0)
  {
    out := sums;
    var k := 0;
    while k < width
      invariant 0 <= k <= width
      invariant forall j :: 0 <= j < |domains| ==> domains[j] in out
      invariant forall j :: 0 <= j < |domains| ==>
        out[domains[j]] == sums[domains[j]] + (if j < k then amt * Fill(shares[j]) else 0.0)
    {
      out := out[domains[k] := out[domains[k]] + amt * Fill(shares[k])];
      k := k + 1;
    }
  }

  /** The TNS row loop: `tns_domain_sums` starts at 0.0 for every domain, and each line
      adds amount × percent to the first `width` domains. */
  method SumTnsLines(lines: seq<TnsLine>, domains: seq<string>, width: nat) returns (sums: map<string, real>)
    requires NoDuplicates(domains) && width <= |domains|
    requires forall l :: l in lines ==> width <= |l.shares|
    ensures forall j :: 0 <= j < |domains| ==> domains[j] in sums
    ensures forall j :: 0 <= j < |domains| ==>
      sums[domains[j]] == if j < width then TnsSum(lines, j) else 0.0
  {
    sums := map d | d in domains :: 0.0;
    var r := 0;
    while r < |lines|
      invariant 0 <= r <= |lines|
      invariant forall j :: 0 <= j < |domains| ==> domains[j] in sums
      invariant forall j :: 0 <= j < |domains| ==>
        sums[domains[j]] == if j < width then TnsSum(lines[..r], j) else 0.0
    {
      assert lines[r] in lines;
      sums := AddTnsLine(sums, domains, width, Fill(lines[r].amount), lines[r].shares);
      forall j | 0 <= j < width {
        TnsSumStep(lines, r, j);
      }
      r := r + 1;
    }
    assert lines[..|lines|] == lines;
  }

  /** The TNS Expenses row: the sums read back in domain order. */
  method AllocateTns(fy: FiscalYear, w: Window, t: TnsSheet, domains: seq<string>) returns (row: seq<real>)
    requires TnsWellShaped(t) && NoDuplicates(domains)
    ensures row == TnsRow(fy, w, t, domains)
  {
    var lines := TnsSelected(fy, w, t);
    var width := ZipWidth(t, domains);
    assert forall l :: l in lines ==> |l.shares| == t.shareColumns;
    var sums := SumTnsLines(lines, domains, width);
    row := seq(|domains|, j requires 0 <= j < |domains| => sums[domains[j]]);
    forall j | 0 <= j < |domains|
      ensures row[j] == TnsRow(fy, w, t, domains)[j]
    {
      TnsRowAt(fy, w, t, domains, j);
    }
  }

  /** A domain past the paired share columns (so past the fifth) stays 0.0. */
  lemma TnsBeyondZip(fy: FiscalYear, w: Window, t: TnsSheet, domains: seq<string>, j: nat)
    requires TnsWellShaped(t) && j < |domains| && (j >= t.shareColumns || j >= 5)
    ensures TnsRow(fy, w, t, domains)[j] == 0.0
  {
  }

  /** TNS allocation is linear in each domain's percentages: lines that differ only in
      column k's percentages, each multiplied by c, give c times the sum. */
  lemma {:induction false} TnsSumScales(scaled: seq<TnsLine>, lines: seq<TnsLine>, k: nat, c: real)
    requires forall j :: 0 <= j < |lines| ==> k < |lines[j].shares|
    requires |scaled| == |lines|
    requires forall j :: 0 <= j < |lines| ==>
      scaled[j].amount == lines[j].amount && k < |scaled[j].shares| &&
      Fill(scaled[j].shares[k]) == c * Fill(lines[j].shares[k])
    ensures TnsSum(scaled, k) == c * TnsSum(lines, k)
    decreases |lines|
  {
    if lines != [] {
      var n := |lines| - 1;
      TnsSumScales(scaled[..n], lines[..n], k, c);
    }
  }
}
