/** South Asian digit grouping (`format_indian_number`): the last three digits form one
    group and the digits before them are grouped in pairs, "1234567" -> "12,34,567". */
module NumberFormat {
  import opened Cells

  function DigitChar(d: nat): (c: char)
    requires d < 10
    ensures IsDigit(c) && c as int - '0' as int == d
  {
    ('0' as int + d) as char
  }

  /** `str(n)` for a natural number: decimal digits, no sign, no separators, and no
      leading zero except in "0" itself. */
  function NatToString(n: nat): (s: string)
    ensures |s| >= 1 && AllDigits(s) && DigitsValue(s) == n
    ensures s[0] != '0' || s == "0"
    decreases n
  {
    if n < 10 then [DigitChar(n)]
    else
      var s := NatToString(n / 10) + [DigitChar(n % 10)];
      assert s[..|s| - 1] == NatToString(n / 10);
      s
  }

  /** `str(n)` for an integer: a leading '-' for negatives. */
  function IntToString(n: int): (s: string)
    ensures ',' !in s
    ensures |s| >= 1
  {
    if n < 0 then "-" + NatToString(-n) else NatToString(n)
  }

  /** Reading `str(n)` back as a float gives n. */
  lemma IntToStringParses(n: int)
    ensures ParseFloat(IntToString(n)) == Some(n as real)
  {
    if n < 0 {
      var t := IntToString(n);
      assert t[1..] == NatToString(-n);
      ParseDigits(NatToString(-n));
    } else {
      ParseDigits(NatToString(n));
    }
  }

  // ---- groups joined by commas -------------------------------------------------

  /** The groups written left to right with a ',' between neighbours. */
  function Join(gs: seq<string>): string {
    if |gs| == 0 then ""
    else if |gs| == 1 then gs[0]
    else Join(gs[..|gs| - 1]) + "," + gs[|gs| - 1]
  }

  /** The groups written left to right with nothing between them. */
  function Concat(gs: seq<string>): string {
    if |gs| == 0 then "" else Concat(gs[..|gs| - 1]) + gs[|gs| - 1]
  }

  predicate NoCommaIn(gs: seq<string>) {
    forall i :: 0 <= i < |gs| ==> ',' !in gs[i]
  }

  /** Position of the last ',' of a string that has one. */
  function LastComma(s: string): (i: nat)
    requires ',' in s
    ensures i < |s| && s[i] == ',' && ',' !in s[i + 1..]
  {
    if s[|s| - 1] == ',' then |s| - 1
    else
      assert ',' in s[..|s| - 1] by {
        var k :| 0 <= k < |s| && s[k] == ',';
        assert s[..|s| - 1][k] == ',';
      }
      var i := LastComma(s[..|s| - 1]);
      assert s[i + 1..] == s[..|s| - 1][i + 1..] + [s[|s| - 1]];
      i
  }

  /** Splitting a text at its commas (Python's `s.split(',')`). */
  function SplitOnCommas(s: string): (gs: seq<string>)
    ensures |gs| >= 1
    decreases |s|
  {
    if ',' !in s then [s]
    else
      var i := LastComma(s);
      SplitOnCommas(s[..i]) + [s[i + 1..]]
  }

  lemma {:induction false} LastCommaOfJoin(a: string, g: string)
    requires ',' !in g
    ensures ',' in a + "," + g && LastComma(a + "," + g) == |a|
  {
    var s := a + "," + g;
    assert s[|a|] == ',';
  }

  /** Splitting joined comma-free groups gives the groups back. */
  lemma {:induction false} SplitJoin(gs: seq<string>)
    requires |gs| >= 1 && NoCommaIn(gs)
    ensures SplitOnCommas(Join(gs)) == gs
  {
    if |gs| > 1 {
      var init := gs[..|gs| - 1];
      var a := Join(init);
      var g := gs[|gs| - 1];
      LastCommaOfJoin(a, g);
      var s := a + "," + g;
      assert s[..|a|] == a && s[|a| + 1..] == g;
      SplitJoin(init);
      assert init + [g] == gs;
    }
  }

  /** Dropping the commas of joined comma-free groups concatenates them. */
  lemma {:induction false} RemoveCommasJoin(gs: seq<string>)
    requires NoCommaIn(gs)
    ensures RemoveCommas(Join(gs)) == Concat(gs)
  {
    if |gs| == 1 {
      RemoveCommasNoop(gs[0]);
      assert Concat(gs) == Concat([]) + gs[0];
    } else if |gs| > 1 {
      var init := gs[..|gs| - 1];
      var g := gs[|gs| - 1];
      RemoveCommasJoin(init);
      RemoveCommasAppend(Join(init) + ",", g);
      RemoveCommasAppend(Join(init), ",");
      RemoveCommasNoop(g);
    }
  }

  // ---- the grouping -------------------------------------------------------------

  /** The digits before the last three, grouped in pairs from the right; the leading
      group keeps one or two characters. */
  function PairGroups(r: string): (gs: seq<string>)
    ensures |gs| >= 1
    decreases |r|
  {
    if |r| <= 2 then [r] else PairGroups(r[..|r| - 2]) + [r[|r| - 2..]]
  }

  /** The groups `format_indian_number` writes for the text `s` of an integer. */
  function IndianGroups(s: string): (gs: seq<string>)
    ensures |gs| >= 1
  {
    if |s| <= 3 then [s] else PairGroups(s[..|s| - 3]) + [s[|s| - 3..]]
  }

  /** What `format_indian_number` returns for the integer n. */
  function IndianFormat(n: int): string {
    Join(IndianGroups(IntToString(n)))
  }

  /** `format_indian_number` on a whole number, transcribed with its loop over `rest`
      and `rest_pairs`. The final `else` of the source (no `rest` left) cannot be reached. */
  method FormatIndianNumber(n: int) returns (out: string)
    ensures out == IndianFormat(n)
  {
    var s := IntToString(n);
    if |s| <= 3 {
      return s;
    }
    var last3 := s[|s| - 3..];
    var rest := s[..|s| - 3];
    var restPairs := "";
    while |rest| > 2
      invariant 1 <= |rest|
      invariant Join(PairGroups(s[..|s| - 3])) == Join(PairGroups(rest)) + restPairs
    {
      var pair := rest[|rest| - 2..];
      var init := Join(PairGroups(rest[..|rest| - 2]));
      assert Join(PairGroups(rest)) + restPairs == init + ("," + pair + restPairs) by {
        JoinPairGroupsStep(rest);
        AppendAssociates(init + ",", pair, restPairs);
        AppendAssociates(init, ",", pair + restPairs);
        AppendAssociates(",", pair, restPairs);
      }
      restPairs := "," + pair + restPairs;
      rest := rest[..|rest| - 2];
    }
    if rest != "" {
      out := rest + restPairs + "," + last3;
      JoinIndianGroups(s);
    } else {
      assert false;
      out := last3;
    }
  }

  /** Peeling the last pair off the digits before the last three. */
  lemma JoinPairGroupsStep(r: string)
    requires |r| > 2
    ensures Join(PairGroups(r)) == Join(PairGroups(r[..|r| - 2])) + "," + r[|r| - 2..]
  {
    var gs := PairGroups(r[..|r| - 2]);
    assert (gs + [r[|r| - 2..]])[..|gs|] == gs;
  }

  /** The text of a number longer than three characters: its pairs, then the last three. */
  lemma JoinIndianGroups(s: string)
    requires |s| > 3
    ensures Join(IndianGroups(s)) == Join(PairGroups(s[..|s| - 3])) + "," + s[|s| - 3..]
  {
    var gs := PairGroups(s[..|s| - 3]);
    assert (gs + [s[|s| - 3..]])[..|gs|] == gs;
  }

  /** Each pair group is a slice of the digits, the leading one of one or two characters
      and every other one of two; together they spell the digits. */
  lemma {:induction false} PairGroupsShape(r: string)
    requires |r| >= 1
    ensures var gs := PairGroups(r);
      && 1 <= |gs[0]| <= 2
      && (forall i :: 1 <= i < |gs| ==> |gs[i]| == 2)
      && Concat(gs) == r
      && (',' !in r ==> NoCommaIn(gs))
      && (AllDigits(r) ==> forall i :: 0 <= i < |gs| ==> AllDigits(gs[i]))
    decreases |r|
  {
    if |r| > 2 {
      var head := r[..|r| - 2];
      var pair := r[|r| - 2..];
      PairGroupsShape(head);
      var hs := PairGroups(head);
      var gs := hs + [pair];
      assert gs[..|gs| - 1] == hs;
      assert head + pair == r;
      if ',' !in r {
        assert ',' !in head by {
          forall k | 0 <= k < |head| ensures head[k] != ',' { assert head[k] == r[k]; }
        }
        assert ',' !in pair by {
          forall k | 0 <= k < |pair| ensures pair[k] != ',' { assert pair[k] == r[|r| - 2 + k]; }
        }
      }
      if AllDigits(r) {
        assert AllDigits(head) by {
          forall k | 0 <= k < |head| ensures IsDigit(head[k]) { assert head[k] == r[k]; }
        }
        assert AllDigits(pair) by {
          forall k | 0 <= k < |pair| ensures IsDigit(pair[k]) { assert pair[k] == r[|r| - 2 + k]; }
        }
      }
    } else {
      assert Concat([r]) == Concat([]) + r;
    }
  }

  /** The shape of `IndianGroups` for a text longer than three characters. */
  lemma {:induction false} IndianGroupsShape(s: string)
    requires |s| > 3
    ensures var gs := IndianGroups(s);
      && |gs| >= 2
      && 1 <= |gs[0]| <= 2
      && (forall i :: 0 < i < |gs| - 1 ==> |gs[i]| == 2)
      && |gs[|gs| - 1]| == 3
      && Concat(gs) == s
      && (',' !in s ==> NoCommaIn(gs))
      && (AllDigits(s) ==> forall i :: 0 <= i < |gs| ==> AllDigits(gs[i]))
  {
    var head := s[..|s| - 3];
    var last3 := s[|s| - 3..];
    PairGroupsShape(head);
    var hs := PairGroups(head);
    var gs := hs + [last3];
    assert gs[..|gs| - 1] == hs;
    assert head + last3 == s;
    if ',' !in s {
      assert ',' !in head by {
        forall k | 0 <= k < |head| ensures head[k] != ',' { assert head[k] == s[k]; }
      }
      assert ',' !in last3 by {
        forall k | 0 <= k < |last3| ensures last3[k] != ',' { assert last3[k] == s[|s| - 3 + k]; }
      }
    }
    if AllDigits(s) {
      assert AllDigits(head) by {
        forall k | 0 <= k < |head| ensures IsDigit(head[k]) { assert head[k] == s[k]; }
      }
      assert AllDigits(last3) by {
        forall k | 0 <= k < |last3| ensures IsDigit(last3[k]) { assert last3[k] == s[|s| - 3 + k]; }
      }
    }
  }

  /** Removing the commas of the grouped text gives back `str(n)`; a text of at most three
      characters is returned as it is; otherwise the groups between the commas are one
      or two characters, then pairs, then exactly three. */
  lemma FormatShape(n: int)
    ensures var s := IntToString(n);
      var out := IndianFormat(n);
      var gs := SplitOnCommas(out);
      && RemoveCommas(out) == s
      && (|s| <= 3 ==> out == s)
      && (|s| > 3 ==>
            && |gs| >= 2
            && 1 <= |gs[0]| <= 2
            && (forall i :: 0 < i < |gs| - 1 ==> |gs[i]| == 2)
            && |gs[|gs| - 1]| == 3)
  {
    var s := IntToString(n);
    if |s| <= 3 {
      RemoveCommasNoop(s);
    } else {
      IndianGroupsShape(s);
      SplitJoin(IndianGroups(s));
      RemoveCommasJoin(IndianGroups(s));
    }
  }

  /** `parse_num(format_indian_number(n)) == n` for every integer n, negatives included. */
  lemma {:induction false} ParseFormatRoundTrip(n: int)
    ensures ParseNum(Text(IndianFormat(n))) == n
  {
    FormatShape(n);
    IntToStringParses(n);
    RoundInteger(n);
  }

  // ---- the sign quirk -------------------------------------------------------------

  predicate HasDigit(g: string) {
    exists i :: 0 <= i < |g| && IsDigit(g[i])
  }

  /** `str(n)` for n >= 10 is `str(n // 10)` followed by the last digit. */
  lemma NatToStringStep(n: nat)
    requires n >= 10
    ensures NatToString(n) == NatToString(n / 10) + [DigitChar(n % 10)]
  {
  }

  lemma MinusTwelveThousandText()
    ensures IntToString(-12345) == "-12345"
  {
    NatToStringStep(12);
    NatToStringStep(123);
    NatToStringStep(1234);
    NatToStringStep(12345);
  }

  /** For -12345 the source writes "-,12,345": the minus sign becomes a group of its own. */
  lemma NegativeGroupingCounterexample()
    ensures IndianFormat(-12345) == "-,12,345"
    ensures !HasDigit(SplitOnCommas(IndianFormat(-12345))[0])
  {
    MinusTwelveThousandGroups();
    JoinMinusTwelveThousand();
    SplitJoin(["-", "12", "345"]);
  }

  /** The groups of "-12345": the sign stands alone as the first pair. */
  lemma MinusTwelveThousandGroups()
    ensures IndianGroups(IntToString(-12345)) == ["-", "12", "345"]
  {
    var s := IntToString(-12345);
    MinusTwelveThousandText();
    assert s[..|s| - 3] == "-12";
    assert s[|s| - 3..] == "345";
    assert PairGroups("-12") == ["-", "12"] by {
      assert "-12"[..1] == "-";
      assert "-12"[1..] == "12";
    }
  }

  lemma JoinMinusTwelveThousand()
    ensures Join(["-", "12", "345"]) == "-,12,345"
  {
    assert ["-", "12", "345"][..2] == ["-", "12"];
    assert ["-", "12"][..1] == ["-"];
  }

  /** The groups of |n|, with the sign put in front of the leading group. */
  function SignedGroups(n: int): (gs: seq<string>)
    ensures |gs| >= 1
  {
    var gs := IndianGroups(NatToString(if n < 0 then -n else n));
    if n < 0 then ["-" + gs[0]] + gs[1..] else gs
  }

  /** The grouping the sign handling evidently intends: group the digits of |n| and put the
      sign in front of the leading group. Every group then holds a digit, the commas still
      come off to `str(n)`, and `parse_num` still reads n back. */
  function SignedIndianFormat(n: int): (out: string)
    ensures RemoveCommas(out) == IntToString(n)
    ensures var gs := SplitOnCommas(out); forall i :: 0 <= i < |gs| ==> HasDigit(gs[i])
    ensures ParseNum(Text(out)) == n
  {
    SignedGroupsFacts(n);
    IntToStringParses(n);
    RoundInteger(n);
    Join(SignedGroups(n))
  }

  lemma {:induction false} SignedGroupsFacts(n: int)
    ensures RemoveCommas(Join(SignedGroups(n))) == IntToString(n)
    ensures SplitOnCommas(Join(SignedGroups(n))) == SignedGroups(n)
    ensures forall i :: 0 <= i < |SignedGroups(n)| ==> HasDigit(SignedGroups(n)[i])
  {
    var digits := NatToString(if n < 0 then -n else n);
    var gs := IndianGroups(digits);
    var signed := SignedGroups(n);
    GroupsOfDigits(digits);
    forall i | 0 <= i < |signed| ensures HasDigit(signed[i]) && ',' !in signed[i] {
      if n < 0 && i == 0 {
        assert signed[0] == "-" + gs[0];
        assert IsDigit(signed[0][1]);
      } else {
        assert signed[i] == gs[i];
        assert IsDigit(gs[i][0]);
      }
    }
    SplitJoin(signed);
    RemoveCommasJoin(signed);
    if n < 0 {
      ConcatSignFront(gs);
    }
  }

  lemma {:induction false} GroupsOfDigits(digits: string)
    requires |digits| >= 1 && AllDigits(digits)
    ensures var gs := IndianGroups(digits);
      && Concat(gs) == digits
      && NoCommaIn(gs)
      && forall i :: 0 <= i < |gs| ==> |gs[i]| >= 1 && AllDigits(gs[i])
  {
    if |digits| > 3 {
      IndianGroupsShape(digits);
    } else {
      assert Concat([digits]) == Concat([]) + digits;
    }
  }

  lemma {:induction false} ConcatSignFront(gs: seq<string>)
    requires |gs| >= 1
    ensures Concat(["-" + gs[0]] + gs[1..]) == "-" + Concat(gs)
    decreases |gs|
  {
    var hs := ["-" + gs[0]] + gs[1..];
    if |gs| == 1 {
      assert hs == ["-" + gs[0]];
      assert Concat(hs) == Concat([]) + ("-" + gs[0]);
      assert Concat(gs) == Concat([]) + gs[0];
    } else {
      var init := gs[..|gs| - 1];
      ConcatSignFront(init);
      assert hs[..|hs| - 1] == ["-" + init[0]] + init[1..];
    }
  }
}
