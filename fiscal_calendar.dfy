/** Months, "Mon-YY" labels and fiscal-year windows (April of one year to March of the
    next), as the dashboard derives them from `month_order` and `month_abbr_map`. */
module FiscalCalendar {
  import opened Cells
  import opened NumberFormat

  /** Position in `month_order`: 0 is April, 8 is December, 9 is January, 11 is March. */
  type FiscalMonth = i: int | 0 <= i < 12

  /** A calendar month number, 1 for January. */
  type CalendarMonth = m: int | 1 <= m <= 12 witness 1

  /** A parsed date (a `datetime` with no time of day). */
  datatype Date = Date(year: int, month: CalendarMonth, day: int)

  /** The selector's choice: "All" or one month name. */
  datatype Window = WholeYear | SingleMonth(month: FiscalMonth)

  /** One fiscal year, named by the calendar year it starts in (2025 for "2025-26").
      `expenseMonthNeedsSalaryColumn` records how the source's single-month expense lookup
      finds its month: for FY 2025-26 it reuses the salary column date, which has been
      set to None when the salary sheet has no such column (so no expense column is found
      then); FY 2024-25 recomputes the date first. `asWritten` selects the dashboard's
      code as it stands: single-month Sales, Deferred Revenue and TNS filters that give
      every month the first year's suffix, and a formatter that puts a comma after the
      minus sign. Without it the same pipeline uses each fiscal month's own year, as the
      "All" window and the salary column date do, and a formatter that groups only the
      digits. */
  datatype FiscalYear = FiscalYear(startYear: int, expenseMonthNeedsSalaryColumn: bool, asWritten: bool)

  const FY2025_26 := FiscalYear(2025, true, true)
  const FY2024_25 := FiscalYear(2024, false, true)

  /** `month_order`. */
  const MonthNames: seq<string> := ["April", "May", "June", "July", "August", "September",
                                    "October", "November", "December", "January", "February", "March"]

  /** `list(month_abbr_map.values())`: strftime "%b" of each name of `month_order`. */
  const FiscalAbbreviations: seq<string> := ["Apr", "May", "Jun", "Jul", "Aug", "Sep",
                                             "Oct", "Nov", "Dec", "Jan", "Feb", "Mar"]

  /** `month_num_map`: the calendar month of a fiscal month. */
  function CalendarMonthOf(i: FiscalMonth): (m: CalendarMonth)
    ensures i < 9 <==> m >= 4
  {
    if i < 9 then i + 4 else i - 8
  }

  /** strftime "%b" of a calendar month. */
  function Abbreviation(m: CalendarMonth): (a: string)
    ensures |a| == 3
  {
    FiscalAbbreviations[if m >= 4 then m - 4 else m + 8]
  }

  /** strftime "%y": the last two digits of a year. */
  function YearSuffix(y: int): (s: string)
    ensures |s| == 2 && AllDigits(s) && DigitsValue(s) == y % 100
  {
    var t := y % 100;
    var s := [DigitChar(t / 10), DigitChar(t % 10)];
    assert s[..1] == [DigitChar(t / 10)] && s[..1][..0] == [];
    assert DigitsValue(s[..1]) == t / 10;
    s
  }

  /** `format_month` on a date it could parse: strftime "%b-%y". */
  function MonthLabel(m: CalendarMonth, y: int): string {
    Abbreviation(m) + "-" + YearSuffix(y)
  }

  /** The calendar year fiscal month i falls in: April to December in the first year,
      January to March in the second. */
  function CalendarYearOf(fy: FiscalYear, i: FiscalMonth): int {
    if i < 9 then fy.startYear else fy.startYear + 1
  }

  /** The "All" window (`months_25_26`, `months_24_25`): the first nine abbreviations with
      the first year's suffix, then the last three with the second year's. */
  function AllWindow(fy: FiscalYear): seq<string> {
    seq(9, k requires 0 <= k < 9 => FiscalAbbreviations[k] + "-" + YearSuffix(fy.startYear))
    + seq(3, k requires 0 <= k < 3 => FiscalAbbreviations[9 + k] + "-" + YearSuffix(fy.startYear + 1))
  }

  /** The name the FY column of the Sales sheet carries, such as "2025-26". */
  function FiscalYearName(fy: FiscalYear): string {
    IntToString(fy.startYear) + "-" + YearSuffix(fy.startYear + 1)
  }

  /** A month cell of a sheet after the reader: a date, or text no date parser accepts. */
  datatype MonthCell = Dated(date: Date) | Unparsed(text: string)

  /** `format_month`: the "Mon-YY" label of a date; text it cannot parse is kept as it is. */
  function FormatMonth(c: MonthCell): string {
    match c
    case Dated(d) => MonthLabel(d.month, d.year)
    case Unparsed(t) => t
  }

  /** The salary column date of a single month (`01-{mm}-{year}` parsed with strptime):
      April to December in the first year, January to March in the second. */
  function SalaryColumnDate(fy: FiscalYear, i: FiscalMonth): (d: Date)
    ensures d.day == 1 && d.month == CalendarMonthOf(i)
    ensures d.year == (if d.month >= 4 then fy.startYear else fy.startYear + 1)
  {
    Date(CalendarYearOf(fy, i), CalendarMonthOf(i), 1)
  }

  /** The label the single-month Sales and Deferred Revenue filters build, as written:
      `f"{abbr}-25"` / `f"{abbr}-24"`, the first year's suffix for every month. */
  function FirstYearLabel(fy: FiscalYear, i: FiscalMonth): string {
    FiscalAbbreviations[i] + "-" + YearSuffix(fy.startYear)
  }

  /** The date the single-month TNS filter compares with, as written: the year is
      hard-coded to the first year (2025 / 2024) for every month. */
  function FirstYearDate(fy: FiscalYear, i: FiscalMonth): Date {
    Date(fy.startYear, CalendarMonthOf(i), 1)
  }

  /** The single-month Sales / Deferred Revenue label of the fiscal year. */
  function SingleMonthLabel(fy: FiscalYear, i: FiscalMonth): (name: string)
    ensures fy.asWritten ==> name == FirstYearLabel(fy, i)
    ensures !fy.asWritten ==> name == AllWindow(fy)[i]
  {
    if fy.asWritten then FirstYearLabel(fy, i) else FiscalMonthLabel(fy, i)
  }

  /** The single-month TNS filter date of the fiscal year. */
  function TnsFilterDate(fy: FiscalYear, i: FiscalMonth): (d: Date)
    ensures fy.asWritten ==> d == FirstYearDate(fy, i)
    ensures !fy.asWritten ==> d == SalaryColumnDate(fy, i)
  {
    if fy.asWritten then FirstYearDate(fy, i) else SalaryColumnDate(fy, i)
  }

  // ---- facts about the labels -----------------------------------------------------

  lemma AbbreviationsDistinct()
    ensures forall a, b :: 0 <= a < b < 12 ==> FiscalAbbreviations[a] != FiscalAbbreviations[b]
  {
  }

  lemma {:induction false} SuffixEquality(a: int, b: int)
    ensures YearSuffix(a) == YearSuffix(b) <==> a % 100 == b % 100
  {
    var ta, tb := a % 100, b % 100;
    if YearSuffix(a) == YearSuffix(b) {
      assert YearSuffix(a)[0] == YearSuffix(b)[0] && YearSuffix(a)[1] == YearSuffix(b)[1];
      assert ta / 10 == tb / 10 && ta % 10 == tb % 10;
      assert ta == 10 * (ta / 10) + ta % 10;
      assert tb == 10 * (tb / 10) + tb % 10;
    }
  }

  lemma {:induction false} LabelParts(a: string, s: string, b: string, t: string)
    requires |a| == 3 && |b| == 3
    ensures a + "-" + s == b + "-" + t <==> a == b && s == t
  {
    if a + "-" + s == b + "-" + t {
      assert (a + "-" + s)[..3] == a && (b + "-" + t)[..3] == b;
      assert (a + "-" + s)[4..] == s && (b + "-" + t)[4..] == t;
    }
  }

  lemma {:induction false} WindowEntry(fy: FiscalYear, i: FiscalMonth)
    ensures |AllWindow(fy)| == 12
    ensures AllWindow(fy)[i] == FiscalAbbreviations[i] + "-" + YearSuffix(CalendarYearOf(fy, i))
  {
  }

  /** The "All" window holds 12 distinct labels in April..March order; the first nine carry
      the first year's suffix and the last three the second year's. */
  lemma {:induction false} AllWindowShape(fy: FiscalYear)
    ensures |AllWindow(fy)| == 12
    ensures forall i :: 0 <= i < 9 ==> AllWindow(fy)[i] == FiscalAbbreviations[i] + "-" + YearSuffix(fy.startYear)
    ensures forall i :: 9 <= i < 12 ==> AllWindow(fy)[i] == FiscalAbbreviations[i] + "-" + YearSuffix(fy.startYear + 1)
    ensures forall i, j :: 0 <= i < j < 12 ==> AllWindow(fy)[i] != AllWindow(fy)[j]
  {
    forall i, j | 0 <= i < j < 12 ensures AllWindow(fy)[i] != AllWindow(fy)[j] {
      WindowEntry(fy, i);
      WindowEntry(fy, j);
      AbbreviationsDistinct();
      LabelParts(FiscalAbbreviations[i], YearSuffix(CalendarYearOf(fy, i)),
                 FiscalAbbreviations[j], YearSuffix(CalendarYearOf(fy, j)));
    }
  }

  /** Entry i of the "All" window is the label `format_month` gives the first day of fiscal
      month i, which is the single-month salary column date. */
  lemma {:induction false} WindowIsSalaryDates(fy: FiscalYear, i: FiscalMonth)
    ensures AllWindow(fy)[i] == MonthLabel(SalaryColumnDate(fy, i).month, SalaryColumnDate(fy, i).year)
  {
    WindowEntry(fy, i);
  }

  /** The fiscal year a calendar month belongs to, by its starting year. */
  function FiscalStartOf(m: CalendarMonth, y: int): int {
    if m >= 4 then y else y - 1
  }

  lemma {:induction false} ModShift(a: int, b: int)
    ensures (a - 1) % 100 == b % 100 <==> a % 100 == (b + 1) % 100
  {
    var q, r := (a - 1) / 100, (a - 1) % 100;
    assert a - 1 == 100 * q + r;
    if r == 99 {
      assert a == 100 * (q + 1);
      assert a % 100 == 0;
    } else {
      assert a == 100 * q + (r + 1);
      assert a % 100 == r + 1;
    }
    var p, t := b / 100, b % 100;
    assert b == 100 * p + t;
    if t == 99 {
      assert b + 1 == 100 * (p + 1);
      assert (b + 1) % 100 == 0;
    } else {
      assert b + 1 == 100 * p + (t + 1);
      assert (b + 1) % 100 == t + 1;
    }
  }

  /** Membership in the "All" window, entry by entry. */
  lemma {:induction false} WindowEntries(fy: FiscalYear, s: string)
    ensures s in AllWindow(fy) <==>
      exists k :: 0 <= k < 12 && s == FiscalAbbreviations[k] + "-" + YearSuffix(CalendarYearOf(fy, k))
  {
    if s in AllWindow(fy) {
      var k :| 0 <= k < |AllWindow(fy)| && AllWindow(fy)[k] == s;
      WindowEntry(fy, k);
    }
    if exists k :: 0 <= k < 12 && s == FiscalAbbreviations[k] + "-" + YearSuffix(CalendarYearOf(fy, k)) {
      var k :| 0 <= k < 12 && s == FiscalAbbreviations[k] + "-" + YearSuffix(CalendarYearOf(fy, k));
      WindowEntry(fy, k);
    }
  }

  /** A date's label is in the "All" window exactly when the date lies in that fiscal year,
      up to the two-digit year suffix (a century apart gives the same labels). */
  lemma {:induction false} WindowMembership(fy: FiscalYear, m: CalendarMonth, y: int)
    ensures MonthLabel(m, y) in AllWindow(fy) <==> FiscalStartOf(m, y) % 100 == fy.startYear % 100
  {
    var i: FiscalMonth := if m >= 4 then m - 4 else m + 8;
    var c := CalendarYearOf(fy, i);
    assert Abbreviation(m) == FiscalAbbreviations[i];
    WindowEntries(fy, MonthLabel(m, y));
    AbbreviationsDistinct();
    SuffixEquality(c, y);
    if m < 4 {
      ModShift(y, fy.startYear);
    }
    assert FiscalStartOf(m, y) % 100 == fy.startYear % 100 <==> YearSuffix(c) == YearSuffix(y);
    if MonthLabel(m, y) in AllWindow(fy) {
      var k :| 0 <= k < 12 && MonthLabel(m, y) == FiscalAbbreviations[k] + "-" + YearSuffix(CalendarYearOf(fy, k));
      LabelParts(FiscalAbbreviations[k], YearSuffix(CalendarYearOf(fy, k)), Abbreviation(m), YearSuffix(y));
      assert k == i;
    }
    if YearSuffix(c) == YearSuffix(y) {
      assert MonthLabel(m, y) == FiscalAbbreviations[i] + "-" + YearSuffix(CalendarYearOf(fy, i));
    }
  }

  /** As written, the single-month Sales/Deferred label lies in the fiscal year's own window
      exactly for April..December: for January..March it names the month a year early
      ("Jan-25" for FY 2025-26, whose window holds "Jan-26"). */
  lemma {:induction false} SingleMonthLabelOutsideWindow(fy: FiscalYear, i: FiscalMonth)
    ensures FirstYearLabel(fy, i) in AllWindow(fy) <==> i < 9
  {
    WindowEntry(fy, i);
    AbbreviationsDistinct();
    if i >= 9 {
      SuffixEquality(fy.startYear + 1, fy.startYear);
      forall k | 0 <= k < 12
        ensures AllWindow(fy)[k] != FirstYearLabel(fy, i)
      {
        WindowEntry(fy, k);
        LabelParts(FiscalAbbreviations[k], YearSuffix(CalendarYearOf(fy, k)),
                   FiscalAbbreviations[i], YearSuffix(fy.startYear));
      }
    }
  }

  /** The label the single-month filters evidently intend: the window's own entry for the
      month, which agrees with the salary column date. */
  function FiscalMonthLabel(fy: FiscalYear, i: FiscalMonth): (name: string)
    ensures name in AllWindow(fy)
    ensures name == MonthLabel(SalaryColumnDate(fy, i).month, SalaryColumnDate(fy, i).year)
    ensures i < 9 ==> name == FirstYearLabel(fy, i)
  {
    WindowEntry(fy, i);
    AllWindow(fy)[i]
  }

  /** As written, the single-month TNS filter date is the salary column date exactly for
      April..December; for January..March it is a year early. */
  lemma TnsFilterDateMismatch(fy: FiscalYear, i: FiscalMonth)
    ensures FirstYearDate(fy, i) == SalaryColumnDate(fy, i) <==> i < 9
  {
  }

  /** "April" and "January" in FY 2025-26 resolve to "Apr-25" and "Jan-26"; as written
      the single-month filters use "Jan-25". */
  lemma FiscalLabelExamples()
    ensures FiscalMonthLabel(FY2025_26, 0) == "Apr-25"
    ensures FiscalMonthLabel(FY2025_26, 9) == "Jan-26"
    ensures SingleMonthLabel(FY2025_26, 9) == "Jan-25"
    ensures TnsFilterDate(FY2025_26, 9) == Date(2025, 1, 1)
  {
    SuffixExamples();
    WindowEntry(FY2025_26, 0);
    WindowEntry(FY2025_26, 9);
  }

  lemma SuffixExamples()
    ensures YearSuffix(2025) == "25" && YearSuffix(2026) == "26"
  {
    assert YearSuffix(2025) == "25";
    assert YearSuffix(2026) == "26";
  }

  lemma FiscalYearNameExample()
    ensures FiscalYearName(FY2025_26) == "2025-26"
  {
    assert YearSuffix(2026) == "26";
    assert DigitChar(2) == '2' && DigitChar(0) == '0' && DigitChar(5) == '5';
    assert NatToString(2) == "2";
    assert NatToString(20) == NatToString(2) + [DigitChar(0)];
    assert NatToString(202) == NatToString(20) + [DigitChar(2)];
    assert NatToString(2025) == NatToString(202) + [DigitChar(5)];
  }
}
