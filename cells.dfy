/** Cells of the Particulars x Domain matrix and the tolerant numeric parsing the
    dashboard applies to them (`parse_num`, and the `float(str(x).replace(',', ''))`
    conversions of the Net Profit % step). */
module Cells {

  datatype Option<T> = None | Some(value: T) {
    /** The value, or `default` when it is missing (pandas `fillna(0)`). */
    function GetOr(default: T): T {
      match this
      case Some(v) => v
      case None => default
    }
  }

  /** Sequence concatenation associates; stated once so that long chains of `+` need not
      be regrouped by the solver. */
  lemma AppendAssociates<T>(a: seq<T>, b: seq<T>, c: seq<T>)
    ensures (a + b) + c == a + (b + c)
  {
  }

  /** A missing or unreadable numeric sheet cell counts as zero. */
  function Fill(a: Option<real>): real {
    a.GetOr(0.0)
  }

  /** A cell of the report matrix. `Percent(p)` is a Net Profit % entry, which the
      dashboard stores as the text `f"{p:.2f}%"`; only its value is modelled. */
  datatype Cell = Num(value: real) | Text(text: string) | Percent(pct: real)

  predicate IsDigit(c: char) {
    '0' <= c <= '9'
  }

  predicate AllDigits(s: string) {
    forall i :: 0 <= i < |s| ==> IsDigit(s[i])
  }

  /** The value of a string of decimal digits, most significant first. */
  function DigitsValue(s: string): nat
    requires AllDigits(s)
  {
    if s == [] then 0 else 10 * DigitsValue(s[..|s| - 1]) + (s[|s| - 1] as int - '0' as int)
  }

  function Pow10(k: nat): (r: nat)
    ensures r >= 1
  {
    if k == 0 then 1 else 10 * Pow10(k - 1)
  }

  /** `str(x).replace(',', '')`. */
  function RemoveCommas(s: string): (r: string)
    ensures ',' !in r
    ensures |r| <= |s|
  {
    if s == [] then [] else (if s[0] == ',' then [] else [s[0]]) + RemoveCommas(s[1..])
  }

  lemma {:induction false} RemoveCommasAppend(a: string, b: string)
    ensures RemoveCommas(a + b) == RemoveCommas(a) + RemoveCommas(b)
    decreases |a|
  {
    if a != [] {
      assert (a + b)[1..] == a[1..] + b;
      RemoveCommasAppend(a[1..], b);
    } else {
      assert a + b == b;
    }
  }

  lemma {:induction false} RemoveCommasNoop(s: string)
    requires ',' !in s
    ensures RemoveCommas(s) == s
    decreases |s|
  {
    if s != [] {
      assert ',' !in s[1..] by {
        forall i | 0 <= i < |s[1..]| ensures s[1..][i] != ',' {
          assert s[1..][i] == s[i + 1];
        }
      }
      RemoveCommasNoop(s[1..]);
      assert s == [s[0]] + s[1..];
    }
  }

  /** Removing commas twice is removing them once: `parse_num` ignores every comma. */
  lemma RemoveCommasIdempotent(s: string)
    ensures RemoveCommas(RemoveCommas(s)) == RemoveCommas(s)
  {
    RemoveCommasNoop(RemoveCommas(s));
  }

  /** Index of the first '.', or |t| when there is none. */
  function PointIndex(t: string): (i: nat)
    ensures i <= |t|
    ensures forall k :: 0 <= k < i ==> t[k] != '.'
    ensures i < |t| ==> t[i] == '.'
  {
    if t == [] then 0 else if t[0] == '.' then 0 else 1 + PointIndex(t[1..])
  }

  /** Python's `float()` on an unsigned decimal literal: digits, optionally a point and
      more digits, at least one digit in all ("12", "12.", ".5", "12.50"). */
  function ParseUnsignedDecimal(t: string): Option<real> {
    var i := PointIndex(t);
    var whole := t[..i];
    var frac := if i < |t| then t[i + 1..] else [];
    if AllDigits(whole) && AllDigits(frac) && |whole| + |frac| > 0 then
      Some(DigitsValue(whole) as real + DigitsValue(frac) as real / Pow10(|frac|) as real)
    else
      None
  }

  /** Python's `float()` on a decimal literal with an optional sign; `None` stands for
      the ValueError it raises on anything else. */
  function ParseFloat(t: string): Option<real> {
    if |t| > 0 && (t[0] == '-' || t[0] == '+') then
      match ParseUnsignedDecimal(t[1..])
      case Some(v) => Some(if t[0] == '-' then -v else v)
      case None => None
    else
      ParseUnsignedDecimal(t)
  }

  lemma {:induction false} ParseDigits(t: string)
    requires AllDigits(t) && |t| > 0
    ensures ParseUnsignedDecimal(t) == Some(DigitsValue(t) as real)
  {
    assert t[..PointIndex(t)] == t;
  }

  /** Python's `round()` on a float: the nearest integer, ties to the even one. */
  function RoundHalfEven(x: real): (r: int)
    ensures (r as real) - 0.5 <= x <= (r as real) + 0.5
    ensures (r as real) - x == 0.5 || x - (r as real) == 0.5 ==> r % 2 == 0
  {
    var f := x.Floor;
    var frac := x - f as real;
    if frac < 0.5 then f
    else if frac > 0.5 then f + 1
    else if f % 2 == 0 then f
    else f + 1
  }

  lemma RoundInteger(n: int)
    ensures RoundHalfEven(n as real) == n
  {
  }

  /** Python's `int()` on a float: drops the fraction, rounding toward zero. */
  function TruncateToInt(x: real): (r: int)
    ensures 0.0 <= x ==> 0 <= r && (r as real) <= x < (r as real) + 1.0
    ensures x < 0.0 ==> r <= 0 && (r as real) - 1.0 < x <= (r as real)
  {
    if x >= 0.0 then x.Floor else -((-x).Floor)
  }

  /** `parse_num`: drop commas, read a float, round it half-to-even; 0 when the text is
      not a number. A number cell's `str` reads back as the same float. */
  function ParseNum(c: Cell): (r: int)
    ensures c.Num? ==> (r as real) - 0.5 <= c.value <= (r as real) + 0.5
    ensures c.Text? && ParseFloat(RemoveCommas(c.text)).None? ==> r == 0
    ensures c.Percent? ==> r == 0
  {
    match c
    case Num(v) => RoundHalfEven(v)
    case Text(t) =>
      (match ParseFloat(RemoveCommas(t))
       case Some(v) => RoundHalfEven(v)
       case None => 0)
    case Percent(_) => 0
  }

  /** `parse_num` gives back every whole number stored in a cell. */
  lemma ParseNumOfWhole(n: int)
    ensures ParseNum(Num(n as real)) == n
  {
    RoundInteger(n);
  }

  /** `float(str(x).replace(',', ''))` as used by the Net Profit % step; `None` is the
      exception (a "12.34%" text cannot be read back). */
  function CellFloat(c: Cell): (r: Option<real>)
    ensures c.Num? ==> r == Some(c.value)
    ensures c.Percent? ==> r.None?
  {
    match c
    case Num(v) => Some(v)
    case Text(t) => ParseFloat(RemoveCommas(t))
    case Percent(_) => None
  }
}
