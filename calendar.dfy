/**
 * The date pickers of the GUI: the Gregorian leap-year rule and the number
 * of days in a month the year and month listeners compute, and the
 * zero-padded labels the year, month and day boxes are filled with.
 */
module Calendar {
  import opened Wrappers
  import opened Text

  /** Divisible by 400, or by 4 and not by 100. Only zero tests, so Java's % and Dafny's agree. */
  predicate IsLeapYear(y: int)
  {
    y % 400 == 0 || (y % 4 == 0 && y % 100 != 0)
  }

  /** The listeners' if-chain for February. */
  function FebruaryDays(y: int): (d: nat)
    ensures d == 28 || d == 29
    ensures d == 29 <==> IsLeapYear(y)
  {
    if y % 400 == 0 then 29
    else if y % 4 == 0 && y % 100 != 0 then 29
    else 28
  }

  /** The month listener's max: 31 for the long months, February by the leap rule, 30 otherwise. */
  function DaysInMonth(y: int, m: int): (d: nat)
    ensures 28 <= d <= 31
    ensures m == 2 ==> (d == 29 <==> IsLeapYear(y)) && (d == 28 <==> !IsLeapYear(y))
    ensures m != 2 ==> (d == 31 <==> m in {1, 3, 5, 7, 8, 10, 12})
    ensures m in {4, 6, 9, 11} ==> d == 30
  {
    if m == 2 then FebruaryDays(y)
    else if m == 1 || m == 3 || m == 5 || m == 7 || m == 8 || m == 10 || m == 12 then 31
    else 30
  }

  /** Days in months 1 to m of year y. */
  function DaysBefore(y: int, m: nat): nat
  {
    if m == 0 then 0 else DaysBefore(y, m - 1) + DaysInMonth(y, m)
  }

  /** The twelve months add up to 365 days, or 366 in a leap year. */
  lemma YearLength(y: int)
    ensures DaysBefore(y, 12) == if IsLeapYear(y) then 366 else 365
  {
    assert DaysBefore(y, 1) == 31;
    assert DaysBefore(y, 2) == 31 + FebruaryDays(y);
    assert DaysBefore(y, 4) == DaysBefore(y, 2) + 31 + 30;
    assert DaysBefore(y, 6) == DaysBefore(y, 4) + 31 + 30;
    assert DaysBefore(y, 8) == DaysBefore(y, 6) + 31 + 31;
    assert DaysBefore(y, 10) == DaysBefore(y, 8) + 30 + 31;
    assert DaysBefore(y, 12) == DaysBefore(y, 10) + 30 + 31;
  }

  /** The box label for a number: its decimal digits, with a zero in front when it is below ten. */
  function Pad(i: nat): string
  {
    if i < 10 then "0" + NatToString(i) else NatToString(i)
  }

  lemma PadFacts(i: nat)
    requires 1 <= i <= 99
    ensures |Pad(i)| == 2 && AllDigits(Pad(i))
    ensures ParseInt(Pad(i)) == Some(i)
  {
    var s := Pad(i);
    if i < 10 {
      assert s == ['0', Digit(i)];
      assert s[..1] == "0";
      assert "0"[..0] == [];
      assert DigitsValue("0") == 0;
      assert s[1] as int - '0' as int == i;
      assert DigitsValue(s) == i;
    } else {
      assert NatToString(i) == [Digit(i / 10), Digit(i % 10)];
      assert s[..1] == [Digit(i / 10)];
      assert [Digit(i / 10)][..0] == [];
      assert DigitsValue([Digit(i / 10)]) == i / 10;
      assert s[1] as int - '0' as int == i % 10;
      assert DigitsValue(s) == i;
    }
  }

  /** The items "01", "02", ... of a box holding 1 to n. */
  function Labels(n: nat): (items: seq<string>)
    ensures |items| == n
  {
    seq(n, i requires 0 <= i < n => Pad(i + 1))
  }

  /** The labels for 1 to n are two digits each, read back as 1 to n, and the first is "01". */
  lemma LabelsFacts(n: nat)
    requires n <= 99
    ensures forall i :: 0 <= i < n ==>
              |Labels(n)[i]| == 2 && AllDigits(Labels(n)[i]) && ParseInt(Labels(n)[i]) == Some(i + 1)
    ensures n > 0 ==> Labels(n)[0] == "01"
  {
    forall i | 0 <= i < n
      ensures |Labels(n)[i]| == 2 && AllDigits(Labels(n)[i]) && ParseInt(Labels(n)[i]) == Some(i + 1)
    {
      PadFacts(i + 1);
    }
    if n > 0 {
      assert Labels(n)[0] == "0" + NatToString(1);
    }
  }

  /** Different positions carry different labels. */
  lemma LabelsDistinct(n: nat, i: nat, j: nat)
    requires n <= 99 && i < n && j < n && i != j
    ensures Labels(n)[i] != Labels(n)[j]
  {
    LabelsFacts(n);
  }

  /** The loop that fills a box with the labels for 1 to max. */
  method FillLabels(max: nat) returns (items: seq<string>)
    ensures items == Labels(max)
  {
    items := [];
    for i := 1 to max + 1
      invariant items == Labels(i - 1)
    {
      var temp := NatToString(i);
      if i < 10 {
        temp := "0" + NatToString(i);
      }
      items := items + [temp];
    }
  }

  /** The year box: "1900" to "2017". */
  function YearItems(): (items: seq<string>)
    ensures |items| == 118
  {
    seq(118, i requires 0 <= i < 118 => NatToString(1900 + i))
  }

  lemma FourDigits(n: nat)
    requires 1000 <= n <= 9999
    ensures |NatToString(n)| == 4
  {
    assert NatToString(n) == NatToString(n / 10) + [Digit(n % 10)];
    assert NatToString(n / 10) == NatToString(n / 100) + [Digit(n / 10 % 10)];
    assert NatToString(n / 100) == NatToString(n / 1000) + [Digit(n / 100 % 10)];
  }

  /** Every year item has four digits and reads back as its year. */
  lemma YearItemsFacts()
    ensures forall i :: 0 <= i < 118 ==>
              |YearItems()[i]| == 4 && AllDigits(YearItems()[i]) && ParseInt(YearItems()[i]) == Some(1900 + i)
  {
    forall i | 0 <= i < 118
      ensures |YearItems()[i]| == 4 && AllDigits(YearItems()[i]) && ParseInt(YearItems()[i]) == Some(1900 + i)
    {
      FourDigits(1900 + i);
      ParseNatToString(1900 + i);
    }
  }
}
