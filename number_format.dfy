/** `fmtNum`: `Number(x).toLocaleString("en-US")` restricted to natural
    numbers, that is, decimal digits grouped in threes from the right and
    separated by commas. */
module NumberFormat {
  import opened Text

  function FmtNum(n: nat): string
  {
    GroupThousands(NatToString(n))
  }

  /** Inserts a comma before every block of three characters counted from
      the right, never at the front. */
  function GroupThousands(digits: string): string
    decreases |digits|
  {
    if |digits| <= 3 then digits
    else GroupThousands(digits[..|digits| - 3]) + "," + digits[|digits| - 3..]
  }

  lemma AllDigitsNoComma(s: string)
    requires AllDigits(s)
    ensures ',' !in s
  {
    assert forall i :: 0 <= i < |s| ==> s[i] != ',';
  }

  lemma AllDigitsSlices(digits: string, k: nat)
    requires AllDigits(digits) && k <= |digits|
    ensures AllDigits(digits[..k]) && AllDigits(digits[k..])
  {
  }

  /** Deleting the commas of a grouped string of more than three digits
      deletes them from the leading part and keeps the last group. */
  lemma UngroupStep(digits: string)
    requires AllDigits(digits) && |digits| > 3
    ensures ReplaceAll(GroupThousands(digits), ',', "")
         == ReplaceAll(GroupThousands(digits[..|digits| - 3]), ',', "") + digits[|digits| - 3..]
  {
    var g, tail := GroupThousands(digits[..|digits| - 3]), digits[|digits| - 3..];
    ReplaceAllAppend(g + ",", tail, ',', "");
    ReplaceAllAppend(g, ",", ',', "");
    ReplaceAllSingle(',', ',', "");
    AllDigitsSlices(digits, |digits| - 3);
    AllDigitsNoComma(tail);
    ReplaceAllAbsent(tail, ',', "");
  }

  /** Deleting the commas of a grouped digit string gives the digits back. */
  lemma {:induction false} GroupThousandsUngroup(digits: string)
    requires AllDigits(digits)
    ensures ReplaceAll(GroupThousands(digits), ',', "") == digits
  {
    if |digits| <= 3 {
      AllDigitsNoComma(digits);
      ReplaceAllAbsent(digits, ',', "");
    } else {
      AllDigitsSlices(digits, |digits| - 3);
      GroupThousandsUngroup(digits[..|digits| - 3]);
      UngroupStep(digits);
      assert digits[..|digits| - 3] + digits[|digits| - 3..] == digits;
    }
  }

  /** The comma-separated groups of a grouped digit string: the first keeps
      the leading digits and has one to three of them, every later group has
      exactly three. */
  predicate WellGrouped(digits: string, groups: seq<string>)
  {
    && |groups| >= 1
    && 1 <= |groups[0]| <= 3
    && HasPrefix(digits, groups[0])
    && (forall i :: 1 <= i < |groups| ==> |groups[i]| == 3)
    && (forall i :: 0 <= i < |groups| ==> AllDigits(groups[i]))
  }

  lemma WellGroupedExtend(digits: string, groups: seq<string>)
    requires |digits| > 3 && AllDigits(digits)
    requires WellGrouped(digits[..|digits| - 3], groups)
    ensures WellGrouped(digits, groups + [digits[|digits| - 3..]])
  {
    assert digits[..|groups[0]|] == digits[..|digits| - 3][..|groups[0]|];
  }

  /** Splitting a grouped string of more than three digits peels off the last group. */
  lemma SplitGroupThousandsStep(digits: string)
    requires AllDigits(digits) && |digits| > 3
    ensures Split(GroupThousands(digits), ',')
         == Split(GroupThousands(digits[..|digits| - 3]), ',') + [digits[|digits| - 3..]]
  {
    var tail := digits[|digits| - 3..];
    AllDigitsSlices(digits, |digits| - 3);
    SplitAppend(GroupThousands(digits[..|digits| - 3]), ',', tail);
    AllDigitsNoComma(tail);
    SplitNoSep(tail, ',');
  }

  lemma {:induction false} GroupThousandsGroups(digits: string)
    requires AllDigits(digits) && |digits| >= 1
    ensures WellGrouped(digits, Split(GroupThousands(digits), ','))
  {
    if |digits| <= 3 {
      AllDigitsNoComma(digits);
      SplitNoSep(digits, ',');
    } else {
      var head, tail := digits[..|digits| - 3], digits[|digits| - 3..];
      AllDigitsSlices(digits, |digits| - 3);
      GroupThousandsGroups(head);
      SplitGroupThousandsStep(digits);
      WellGroupedExtend(digits, Split(GroupThousands(head), ','));
    }
  }

  /** Deleting the commas yields the decimal digits of the number. */
  lemma FmtNumDigits(n: nat)
    ensures ReplaceAll(FmtNum(n), ',', "") == NatToString(n)
  {
    GroupThousandsUngroup(NatToString(n));
  }

  /** Hence the digits left after deleting the commas denote the number. */
  lemma FmtNumValue(n: nat)
    ensures AllDigits(ReplaceAll(FmtNum(n), ',', ""))
    ensures DigitsValue(ReplaceAll(FmtNum(n), ',', "")) == n
  {
    FmtNumDigits(n);
    NatToStringValue(n);
  }

  /** The groups between commas are digit strings; the first has one to three
      digits and no leading zero unless the number is 0, every later group
      has exactly three. */
  lemma FmtNumGroups(n: nat)
    ensures var groups := Split(FmtNum(n), ',');
      && 1 <= |groups[0]| <= 3
      && (groups[0][0] == '0' ==> n == 0)
      && (forall i :: 1 <= i < |groups| ==> |groups[i]| == 3)
      && (forall i :: 0 <= i < |groups| ==> AllDigits(groups[i]))
  {
    GroupThousandsGroups(NatToString(n));
    var digits := NatToString(n);
    var g := Split(FmtNum(n), ',');
    assert g[0][0] == digits[0];
    if digits[0] == '0' {
      NatToStringValue(n);
      assert DigitsValue("0") == 0 by { DigitsValueSnoc([], '0'); assert [] + ['0'] == "0"; }
    }
  }

  /** Only digits and commas occur. */
  lemma {:induction false} GroupThousandsChars(digits: string)
    requires AllDigits(digits)
    ensures forall i :: 0 <= i < |GroupThousands(digits)| ==>
      IsDigit(GroupThousands(digits)[i]) || GroupThousands(digits)[i] == ','
  {
    if |digits| > 3 {
      var head := digits[..|digits| - 3];
      assert AllDigits(head);
      GroupThousandsChars(head);
    }
  }

  lemma FmtNumChars(n: nat)
    ensures forall i :: 0 <= i < |FmtNum(n)| ==> IsDigit(FmtNum(n)[i]) || FmtNum(n)[i] == ','
  {
    GroupThousandsChars(NatToString(n));
  }

  lemma NatToStringSnoc(n: nat, d: nat)
    requires n >= 1 && d < 10
    ensures NatToString(10 * n + d) == NatToString(n) + [DigitChar(d)]
  {
    assert (10 * n + d) / 10 == n && (10 * n + d) % 10 == d;
  }

  lemma NatToStringThousand()
    ensures NatToString(1000) == "1000"
  {
    NatToStringSnoc(1, 0);
    NatToStringSnoc(10, 0);
    NatToStringSnoc(100, 0);
  }

  lemma FmtNumExampleSmall()
    ensures FmtNum(0) == "0"
    ensures FmtNum(1000) == "1,000"
  {
    NatToStringThousand();
    assert "1000"[..1] == "1" && "1000"[1..] == "000";
  }

  lemma NatToStringMillion()
    ensures NatToString(1234567) == "1234567"
  {
    NatToStringSnoc(1, 2);
    NatToStringSnoc(12, 3);
    NatToStringSnoc(123, 4);
    NatToStringSnoc(1234, 5);
    NatToStringSnoc(12345, 6);
    NatToStringSnoc(123456, 7);
  }

  lemma GroupThousandsMillion()
    ensures GroupThousands("1234567") == "1,234,567"
  {
    var d := "1234567";
    assert d[..4] == "1234" && d[4..] == "567";
    assert "1234"[..1] == "1" && "1234"[1..] == "234";
  }

  lemma FmtNumExampleMillion()
    ensures FmtNum(1234567) == "1,234,567"
  {
    NatToStringMillion();
    GroupThousandsMillion();
  }
}
