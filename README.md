# Profitability dashboard: the domain matrix of one fiscal year

This project is a Dafny model of the computing core of `profitability_dashboard.py`, a
Streamlit page. For one fiscal year (FY 2025-26 or FY 2024-25) and one window (the
whole year, "All", or a single month) the page builds a Particulars x Domain matrix from
a workbook's sheets and shows it with Indian digit grouping. The model covers these parts:

- **Number formatting.** `format_indian_number` groups the digits as South Asian lakhs and
  crores (`12,34,567`).
- **Number parsing.** `parse_num` removes commas, rounds half to even and reads anything
  unparseable as 0.
- **Total column.** `insert_total_column` inserts a Total column of row-wise `parse_num`
  sums right after "Other Services".
- **Fiscal months.** Fiscal months run April to March. The model builds the "Mon-YY"
  labels of the "All" window, the salary column date of a single month, and the labels
  the single-month filters compare against.
- **The matrix pipeline.** It is modelled once, over a fiscal-year descriptor, and builds
  these rows in order:
  - Sales, then Deferred Revenue (posted to "G-Suite Business").
  - Purchase (looked up by domain name), then Gross Profit.
  - Salary & Incentives: per allocation column, the sum of salary × share.
  - One row per expense category, split by sales ratio.
  - TNS Expenses: amount × percentage, zipped with the domains.
  - Net Profit, found by row name.

  Then come the Total column, the Net Profit % row and the formatting.

The source copies the pipeline four times: All and single month, for each of two fiscal
years. The model writes it once:

- `FiscalCalendar.FiscalYear` records the first calendar year.
- Its `expenseMonthNeedsSalaryColumn` flag records the one difference between the copies.
  The FY 2025-26 single-month expense lookup reuses the salary column date, which is
  `None` when the salary sheet lacks that month (lines 675-695). FY 2024-25 recomputes
  the date first (lines 899-918).
- Its `asWritten` flag selects the code as it stands. With the flag off, the model uses
  the corrected behaviour listed under Findings.
- `FY2025_26` and `FY2024_25` are the two descriptors, both as written.

The sheets come in already read, as `Pipeline.SalesSheet` and `Pipeline.FiscalSheets`:
- An empty cell, which pandas reads as NaN, is `None` and counts as 0 (`fillna(0)`).
- A TNS amount or percentage that `float()` cannot read also counts as 0, as the
  `try`/`except` around it makes it (lines 255-266).
- A sheet that fails to load (the TNS sheet inside its `try`) is `None`.

The pipeline's result is a `Result`. The only error is the `ValueError` pandas raises when
the Salary & Incentives row does not have one value per domain. That row has one value
per allocation column found in the salary sheet.

Imperative parts become methods proved against the functions that specify them:
- `NumberFormat.FormatIndianNumber` is the grouping loop.
- `Matrix.Frame.InsertTotalColumn` is the in-place `df.insert` on a frame object.
- `Allocation.AllocateSalary` holds the salary loops.
- `Allocation.AllocateTns` holds the TNS loops over a dictionary: `SumTnsLines` and
  `AddTnsLine`.
- `Pipeline.AppendExpenseRows`, `Pipeline.BuildBaseLines` and `Pipeline.BuildFiscalMatrix`
  grow the table one `pd.concat` at a time.

Files (one module each):
- `cells.dfy`: cells, `parse_num`, rounding and truncation.
- `number_format.dfy`: `format_indian_number`.
- `fiscal_calendar.dfy`: months, labels and windows.
- `matrix.dfy`: tables, `insert_total_column` and lookups by name.
- `allocation.dfy`: Salary, expense and TNS allocation.
- `pipeline.dfy`: the pipeline.
- `properties.dfy`: what the finished matrix guarantees.

## Model

| member | source | states |
|---|---|---|
| Cells.RemoveCommas | profitability_dashboard.py:104 | the result contains no comma and is no longer than the input |
| Cells.RemoveCommasIdempotent | profitability_dashboard.py:104 | removing commas twice is removing them once |
| Cells.ParseDigits | profitability_dashboard.py:104 | a non-empty digit string is read by `float` as its decimal value |
| Cells.RoundHalfEven | profitability_dashboard.py:104 | `round` gives the nearest integer, and the even one on a tie |
| Cells.TruncateToInt | profitability_dashboard.py:65 | `int(x)` cuts toward zero: for x ≥ 0 the floor, for x < 0 the ceiling |
| Cells.ParseNum | profitability_dashboard.py:102-106 | a number parses to its nearest integer; text that `float` rejects after comma removal gives 0; a "12.34%" cell gives 0 |
| Cells.ParseNumOfWhole | profitability_dashboard.py:102-106 | a whole number parses to itself |
| Cells.CellFloat | profitability_dashboard.py:294 | `float(str(x).replace(',', ''))` of a number is the number; of a percentage string it fails |
| NumberFormat.NatToString | profitability_dashboard.py:66 | `str` of a natural number is a non-empty digit string whose value is the number, with no leading zero except in "0" |
| NumberFormat.IntToStringParses | profitability_dashboard.py:66 | `float(str(n))` is n, negatives included |
| NumberFormat.FormatIndianNumber | profitability_dashboard.py:60-81 | the grouping loop produces exactly `IndianFormat(n)`; the `else` branch at lines 78-79 is unreachable |
| NumberFormat.IndianGroupsShape | profitability_dashboard.py:70-79 | for more than three characters: a leading group of 1-2, middle groups of exactly 2, a last group of exactly 3, concatenating back to the input |
| NumberFormat.FormatShape | profitability_dashboard.py:60-79 | removing the commas gives `str(int(x))`; up to three characters the string comes back unchanged; otherwise the groups have the 1-2 / 2 / 3 shape |
| NumberFormat.ParseFormatRoundTrip | profitability_dashboard.py:60-106 | `parse_num(format_indian_number(n)) == n` for every integer, negatives included |
| NumberFormat.NegativeGroupingCounterexample | profitability_dashboard.py:70-77 | -12345 is formatted "-,12,345", whose first group holds no digit |
| NumberFormat.SignedIndianFormat | profitability_dashboard.py:60-81 | corrected grouping: comma removal gives `str(n)`, every group holds a digit, and it parses back to n |
| FiscalCalendar.CalendarMonthOf | profitability_dashboard.py:666 | fiscal months 0-8 (April-December) are calendar months 4-12, and 9-11 are 1-3 |
| FiscalCalendar.YearSuffix | profitability_dashboard.py:94 | strftime "%y" is two digits whose value is the year mod 100 |
| FiscalCalendar.SalaryColumnDate | profitability_dashboard.py:668-673 | the single-month salary date is the 1st of the month, in the first year for April-December and the second for January-March |
| FiscalCalendar.SingleMonthLabel | profitability_dashboard.py:615-618 | as written the single-month Sales/Deferred label carries the first year's suffix; corrected it is the "All" window's entry for that month |
| FiscalCalendar.TnsFilterDate | profitability_dashboard.py:718-724 | as written the single-month TNS date has the hard-coded first year; corrected it is the salary column date |
| FiscalCalendar.AllWindowShape | profitability_dashboard.py:129-136 | the "All" window has 12 distinct labels in April..March order: nine with the first year's suffix, then three with the second's |
| FiscalCalendar.WindowIsSalaryDates | profitability_dashboard.py:136 | entry i of the "All" window is the label of month i's salary column date |
| FiscalCalendar.WindowMembership | profitability_dashboard.py:136-137 | a date's label is in the "All" window iff the date lies in that fiscal year (up to the two-digit year) |
| FiscalCalendar.SingleMonthLabelOutsideWindow | profitability_dashboard.py:616 | the as-written single-month label is in the year's own window iff the month is April-December |
| FiscalCalendar.FiscalMonthLabel | profitability_dashboard.py:668-672 | the corrected label is in the window, is the label of the salary column date, and equals the as-written label for April-December |
| FiscalCalendar.TnsFilterDateMismatch | profitability_dashboard.py:719 | the hard-coded TNS date equals the salary column date iff the month is April-December |
| FiscalCalendar.FiscalLabelExamples | profitability_dashboard.py:616-617 | for FY 2025-26, April is "Apr-25" and January is "Jan-26", while the as-written filters use "Jan-25" and 1 Jan 2025 |
| FiscalCalendar.FiscalYearNameExample | profitability_dashboard.py:137 | the FY column value of FY 2025-26 is "2025-26" |
| Matrix.IndexOf | profitability_dashboard.py:111 | `list.index`: the first position holding the name |
| Matrix.WithTotal | profitability_dashboard.py:108-119 | the result has one cell per column in every row, the same rows, and the same row names |
| Matrix.TotalledColumns | profitability_dashboard.py:110-118 | the columns after `insert_total_column` hold "Total" iff the old ones held "Total" or "Other Services" |
| Matrix.TotalColumnPlacement | profitability_dashboard.py:108-119 | "Total" sits right after "Other Services"; each row's Total is the `parse_num` sum of its other cells; deleting it gives back the original columns and cells |
| Matrix.WithTotalUnchanged | profitability_dashboard.py:110-113 | without "Other Services", or with "Total" already present, the table is returned unchanged |
| Matrix.WithTotalIdempotent | profitability_dashboard.py:112-113 | inserting the Total column twice equals inserting it once |
| Matrix.WithTotalCell | profitability_dashboard.py:117-118 | every cell after the insertion is the new Total or the original cell of the same column |
| Matrix.WithTotalKeepsCells | profitability_dashboard.py:118 | any cell looked up by row name and column name other than "Total" is the same before and after |
| Matrix.RowsWithTotals | profitability_dashboard.py:117-118 | the row-wise loop gives every row its `parse_num` sum inserted at the Total position, row count kept |
| Matrix.Frame.InsertTotalColumn | profitability_dashboard.py:108-119 | updating the frame in place leaves it holding `WithTotal` of its old contents |
| Matrix.FindRow | profitability_dashboard.py:274 | `tbl[tbl['Particulars'] == name].index[0]`: the first row of that name, or none |
| Matrix.WithoutLabel | profitability_dashboard.py:288 | the rows kept are exactly those with another name; with no such row the table is unchanged |
| Matrix.WithoutLabelCounts | profitability_dashboard.py:288 | each row of another name is kept as often as it occurs, and none of that name is |
| Matrix.WithoutLabelAppend | profitability_dashboard.py:288 | the filter works piece by piece over concatenated rows, so the kept rows stay in their order |
| Allocation.AllocationColumns | profitability_dashboard.py:186-188 | the allocation columns are the salary headers among the five domains, sorted by their place in `domain_order`, so without repeats and at most five |
| Allocation.FilterInOrdered | profitability_dashboard.py:187-188 | filtering a list without repeats keeps the kept elements in that list's order |
| Allocation.SalaryMonthColumn | profitability_dashboard.py:675-676 | the single month's salary column is a column headed by its date, or none iff no header has that date |
| Allocation.SalaryRow | profitability_dashboard.py:182-194 | one Salary & Incentives value per allocation column |
| Allocation.AllocateSalary | profitability_dashboard.py:189-194 | the month-by-month accumulation loops compute `SalaryRow` |
| Allocation.SalaryWithoutMonthColumn | profitability_dashboard.py:675-683 | with no column for the chosen month, every domain's salary is 0 |
| Allocation.SalaryMonthColumnInOrder | profitability_dashboard.py:668-676 | with the month columns in fiscal order, month i's salary column is column i |
| Allocation.SalaryMonthsAddUp | profitability_dashboard.py:189-194 | with the month columns in fiscal order, the twelve single-month salary values of a domain add up to its "All" value |
| Allocation.SalaryMonthsPrefix | profitability_dashboard.py:189-194 | with the month columns in fiscal order, the first m single-month salary values of a domain add up to its salary over those m months |
| Allocation.MonthProductScales | profitability_dashboard.py:192 | a month's weighted salary is linear in the domain's shares |
| Allocation.YearProductScales | profitability_dashboard.py:190-193 | the year's weighted salary is linear in the domain's shares |
| Allocation.MonthProductAppend | profitability_dashboard.py:192 | the weighted salary of two groups of employees is the sum of theirs |
| Allocation.MonthProductNoShare | profitability_dashboard.py:192 | a domain nobody has a share in gets 0 |
| Allocation.Categories | profitability_dashboard.py:236 | `dropna().unique()`: no repeats, and a category is listed iff some line carries it |
| Allocation.FirstLine | profitability_dashboard.py:236 | the first line carrying a category |
| Allocation.CategoriesInEncounterOrder | profitability_dashboard.py:236 | categories come in the order of their first appearance |
| Allocation.SameMonthColumn | profitability_dashboard.py:690-696 | the expense column found for a month is the first with that month and year, and none is found iff no column has them |
| Allocation.ExpenseColumnsFor | profitability_dashboard.py:686-702 | "All" reads the twelve month columns; a single month reads the first column in the month and year of its salary column date, and reads none iff no column matches or (FY 2025-26) the salary sheet lacks that date |
| Allocation.SalesRatios | profitability_dashboard.py:239 | one ratio per domain |
| Allocation.ExpenseRowSplits | profitability_dashboard.py:237-246 | with non-zero total sales a category's row sums to its total and domain d gets total × sales_d / total sales; with zero total sales every cell is 0 |
| Allocation.LinesDated | profitability_dashboard.py:722-724 | the TNS lines kept are exactly those dated on the filter date, each as often as it occurs |
| Allocation.TnsSelected | profitability_dashboard.py:718-724 | "All", or a sheet without a Month column, reads every TNS line; a single month reads the lines dated on its TNS filter date, each as often as it occurs |
| Allocation.ZipWidth | profitability_dashboard.py:261 | `zip` runs as far as the shorter of the share columns and the domains |
| Allocation.TnsRowAt | profitability_dashboard.py:255-268 | a domain within the zip gets Σ amount × percentage over the selected lines, and any other domain 0 |
| Allocation.AddTnsLine | profitability_dashboard.py:261-266 | one line adds amount × percentage to each zipped domain's sum and leaves the others alone |
| Allocation.SumTnsLines | profitability_dashboard.py:255-266 | the dictionary loop ends with each zipped domain's Σ amount × percentage and 0.0 elsewhere |
| Allocation.AllocateTns | profitability_dashboard.py:253-270 | the TNS loops compute `TnsRow` |
| Allocation.TnsBeyondZip | profitability_dashboard.py:261 | a domain beyond the five share columns (or beyond the sheet's) stays 0.0 |
| Allocation.TnsSumScales | profitability_dashboard.py:263-266 | a TNS domain's value is linear in its percentages |
| Pipeline.SalesRow | profitability_dashboard.py:137-141 | one Sales value per domain |
| Pipeline.DeferredRow | profitability_dashboard.py:149 | one Deferred Revenue value per domain |
| Pipeline.PurchaseFor | profitability_dashboard.py:156 | a domain's purchase line is the last of the sheet's lines with that name (`dict` keeps the last), and none iff there is no such line |
| Pipeline.PurchaseRow | profitability_dashboard.py:157-162 | one Purchase value per domain: its line's twelve months summed for "All", the chosen month's value for a single month, 0 without a line |
| Pipeline.PurchaseMonthsAddUp | profitability_dashboard.py:157-162 | the twelve single-month Purchase values of a domain add up to its "All" value |
| Pipeline.ExpenseLines | profitability_dashboard.py:240-246 | one row per category, named by it, in order, with one value per domain |
| Pipeline.WithNetProfit | profitability_dashboard.py:274-282 | when it succeeds, every row still has one value per domain |
| Pipeline.PercentOf | profitability_dashboard.py:292-297 | the percentage is 0 when the sales cell is 0 or cannot be read as a number, and when the net profit cell cannot be read (the "0.00%" fallback); when both read and sales is non-zero it is `PercentValue` of the two |
| Pipeline.PercentValue | profitability_dashboard.py:294 | on non-zero sales, the percentage × sales = net profit × 100 |
| Pipeline.PercentCells | profitability_dashboard.py:292 | `zip` yields as many percentages as the shorter row has cells |
| Pipeline.FitToWidth | profitability_dashboard.py:299-302 | exactly the column count: the cells that fit are kept in place and the rest is padded with '' |
| Pipeline.WithPercentRow | profitability_dashboard.py:286-303 | the columns stay and every row has one cell per column |
| Pipeline.Assembled | profitability_dashboard.py:134-308 | the finished table has one cell per column in every row |
| Pipeline.FormatNumber | profitability_dashboard.py:60-81 | the formatted number parses back to itself; corrected, every group holds a digit |
| Pipeline.FormatCell | profitability_dashboard.py:309-310 | a number is cut toward zero and grouped; text is left alone |
| Pipeline.Formatted | profitability_dashboard.py:309-310 | every cell of every row is formatted, and names and columns stay |
| Pipeline.AppendExpenseRows | profitability_dashboard.py:240-246 | the expense loop appends exactly `ExpenseLines` |
| Pipeline.BuildBaseLines | profitability_dashboard.py:137-272 | the step-by-step construction gives `BaseLines` |
| Pipeline.BuildFiscalMatrix | profitability_dashboard.py:137-310 | the construction with an in-place Total column gives `FiscalMatrix` |
| Properties.BaseLinesLayout | profitability_dashboard.py:137-272 | when the Salary row has one value per domain, the rows are Sales, Deferred Revenue, Purchase, Gross Profit, Salary & Incentives, one per category in order, then TNS when loaded |
| Properties.NetProfitOfLayout | profitability_dashboard.py:274-282 | on rows in the dashboard's order Net Profit is found and equals Gross Profit minus Salary, the expense rows and TNS |
| Properties.NetProfitLessCosts | profitability_dashboard.py:274-282 | Net Profit is appended last and, per domain, equals Gross Profit − Salary & Incentives − Σ expense rows − TNS |
| Properties.FailsOnlyOnSalaryWidth | profitability_dashboard.py:230-231 | the year's matrix is produced iff the Salary row has one value per Sales domain; otherwise the error names both widths |
| Properties.SumParsedDifference | profitability_dashboard.py:117 | row sums keep a cell-by-cell `parse_num` difference |
| Properties.WithTotalKeepsGrossProfit | profitability_dashboard.py:108-119 | inserting Total keeps parse_num(GP) = parse_num(Sales) − parse_num(Deferred) − parse_num(Purchase) in every column, Total included |
| Properties.WithTotalKeepsDeferred | profitability_dashboard.py:108-119 | inserting Total keeps Deferred Revenue under "G-Suite Business" alone |
| Properties.SecondTotalNoop | profitability_dashboard.py:306-308 | the second `insert_total_column`, after Net Profit %, changes nothing |
| Properties.PercentRowAppended | profitability_dashboard.py:286-303 | earlier Net Profit % rows are dropped; with Sales and Net Profit found one row is appended whose cells are the column-wise percentages (the padding never applies); otherwise nothing is appended |
| Properties.WithPercentRowKeepsLeading | profitability_dashboard.py:288 | the Net Profit % step leaves the four leading rows in place |
| Properties.PercentRowAfterSales | profitability_dashboard.py:286-303 | on a table led by Sales that holds Net Profit, the last row becomes Net Profit %, with the column-wise percentage of the first Net Profit row over Sales |
| Properties.FinishingKeepsLeadingRows | profitability_dashboard.py:108-119 | the Total column and the Net Profit % row keep the Gross Profit identity and the Deferred Revenue placement |
| Properties.AssembledLeadingRows | profitability_dashboard.py:222-225 | in the finished matrix Gross Profit is Sales − Deferred − Purchase in every column including Total, and Deferred Revenue is the window's total under "G-Suite Business" and 0 elsewhere |
| Properties.AssembledPercentRow | profitability_dashboard.py:286-303 | the finished matrix ends in Net Profit %, whose cell per column is the percentage of that column's Net Profit over its Sales |
| Properties.AssembledColumns | profitability_dashboard.py:284 | the columns are the Sales domains, with "Total" right after "Other Services" when that is present and "Total" is not; a further insertion changes nothing |
| Properties.SingleMonthsPartitionYear | profitability_dashboard.py:136 | with each month's own year, a label is in the year iff exactly one single month reads it |
| Properties.JanuaryMissedAsWritten | profitability_dashboard.py:616 | as written, "Jan-26" is in FY 2025-26's "All" window and in none of its single-month windows |
| Properties.SingleMonthSalesAddUp | profitability_dashboard.py:618 | with each month's own year, the twelve single-month Sales values of a domain add up to the "All" value |
| Properties.JanuarySaleMissedAsWritten | profitability_dashboard.py:618 | as written, a January 2026 sale counts in FY 2025-26's "All" Sales and in no single month |

## Left out

- The Streamlit page is not modelled. That covers the page setup, the month selector, subheaders, warnings, `st.stop` and `highlight_key_rows` (lines 5-40, 132): they only display.
- The Plotly charts, `safe_parse` and `lakhs_labels` are not modelled: they only draw the matrix.
- `pd.read_excel` and the positional slicing of the sheets are not modelled. Each sheet is an already-read value:
  - a month cell is a parsed date or raw text;
  - an amount is a number or `None`.
- `format_month`'s date parsing (lines 51-58, 91-100) is not modelled. Only the step from a parsed date to its "Mon-YY" label is.
- `float()` on text is modelled for plain decimals only: an optional sign, digits and one point. Exponents, surrounding spaces, underscores, "inf" and "nan" are read as unparseable.
- Floating point is not modelled: values are exact reals. The Net Profit % value is kept as a number; its `f"{pct:.2f}%"` text is not modelled.
- Purchase cells are taken as numbers. A NaN purchase cell is not modelled.
- A text cell in the salary, expense or Deferred Revenue columns makes the source raise: the products at lines 192, 680 and 892 and the `.sum()` calls at lines 148, 241, 702 and 924 do not go through `float()`. Those cells are modelled as numbers or empty, so this failure is outside the model.
- The salary branch under `else` at lines 195-214 and 449-480 cannot run inside the "All" block, so it is not modelled. The single-month salary code at lines 653-684 and 860-896 is.
- Column names are assumed distinct, as the sheet reader makes repeated headers distinct. "Particulars" is each row's name rather than a column.
- The copies differ only in ways proved to make no difference:
  - FY 2025-26 "All" pads and cuts the Net Profit % row and inserts Total a second time. `Properties.PercentRowAppended` shows the row already fits. `Properties.SecondTotalNoop` shows the second insertion changes nothing.
  - The single-month copies format only non-text cells. The only text cells are the Net Profit % strings and padding, which `format_indian_number` returns unchanged.
- `FiscalYear.asWritten` off is the corrected dashboard described under Findings, not a mode of the source.
- The single-month filters that read the selector's month name are modelled through the fiscal month the name stands for.
- Pipeline.WithNetProfit: its contract states only the widths. The Net Profit values are stated by `Properties.NetProfitLessCosts`.
- Pipeline.Assembled: its contract states only the shape. The row-by-row properties are stated by the `Properties.Assembled*` lemmas.

## Findings

| source | as written | input that shows it | evidently intended | confidence | as-written member | corrected member |
|---|---|---|---|---|---|---|
| profitability_dashboard.py:70-77 | negative numbers are grouped with their sign, giving a group with no digit | -12345 gives "-,12,345" | "-12,345" | not executed | NumberFormat.NegativeGroupingCounterexample | NumberFormat.SignedIndianFormat |
| profitability_dashboard.py:616-618 | the single-month Sales and Deferred Revenue filters use the first year's suffix for every month | "January" in FY 2025-26 filters on "Jan-25", outside that year, so a January 2026 sale shows in "All" but in no month | "Jan-26", the window's own entry | not executed | Properties.JanuarySaleMissedAsWritten | Properties.SingleMonthSalesAddUp |
| profitability_dashboard.py:719 | the single-month TNS filter hard-codes the first year | "January" in FY 2025-26 filters TNS lines on 1 Jan 2025 | 1 Jan 2026, the salary column date | not executed | FiscalCalendar.TnsFilterDateMismatch | FiscalCalendar.TnsFilterDate |
