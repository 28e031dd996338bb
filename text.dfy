/**
 * Character classes, case mapping and integer parsing as the Java code uses
 * them (Character.isDigit, String.toUpperCase/toLowerCase, Integer.parseInt,
 * and the "" + i conversion), restricted to ASCII.
 */
module Text {
  import opened Wrappers

  /** Character.isDigit, for ASCII digits. */
  predicate IsDigit(c: char) { '0' <= c <= '9' }

  predicate IsUpper(c: char) { 'A' <= c <= 'Z' }

  predicate IsLower(c: char) { 'a' <= c <= 'z' }

  function ToUpper(c: char): char
  {
    if IsLower(c) then (c as int - 32) as char else c
  }

  function ToLower(c: char): char
  {
    if IsUpper(c) then (c as int + 32) as char else c
  }

  /** String.toUpperCase. */
  function UpperCase(s: string): string
  {
    seq(|s|, i requires 0 <= i < |s| => ToUpper(s[i]))
  }

  /** String.toLowerCase. */
  function LowerCase(s: string): string
  {
    seq(|s|, i requires 0 <= i < |s| => ToLower(s[i]))
  }

  /** No character of s is a digit. */
  predicate NoDigits(s: string)
  {
    forall i :: 0 <= i < |s| ==> !IsDigit(s[i])
  }

  /** Every character of s is a digit. */
  predicate AllDigits(s: string)
  {
    forall i :: 0 <= i < |s| ==> IsDigit(s[i])
  }

  /** The first letter is not lower case and no later letter is upper case. */
  predicate IsCapitalized(s: string)
  {
    |s| > 0 && !IsLower(s[0]) && forall i :: 1 <= i < |s| ==> !IsUpper(s[i])
  }

  /** s and t are equal when case is ignored. */
  predicate SameIgnoringCase(s: string, t: string)
  {
    |s| == |t| && forall i :: 0 <= i < |s| ==> ToLower(s[i]) == ToLower(t[i])
  }

  /**
   * input.substring(0, 1).toUpperCase() + input.substring(1).toLowerCase(),
   * the way both front ends store a first or last name. The Java code only
   * calls it on a non-empty name (the empty one has been turned away before).
   */
  function Capitalize(s: string): (r: string)
    requires |s| > 0
    ensures IsCapitalized(r)
    ensures SameIgnoringCase(r, s)
  {
    [ToUpper(s[0])] + LowerCase(s[1..])
  }

  /** Capitalizing twice is capitalizing once. */
  lemma CapitalizeIdempotent(s: string)
    requires |s| > 0
    ensures Capitalize(Capitalize(s)) == Capitalize(s)
  {
    var c := Capitalize(s);
    var cc := Capitalize(c);
    assert |cc| == |c|;
    forall i | 0 <= i < |c| ensures cc[i] == c[i] {
      if i == 0 {
        assert cc[0] == ToUpper(c[0]);
      } else {
        assert cc[i] == ToLower(c[i]);
      }
    }
  }

  /** Case mapping never turns a digit into a non-digit or back. */
  lemma CapitalizeKeepsDigits(s: string)
    requires |s| > 0
    ensures NoDigits(Capitalize(s)) <==> NoDigits(s)
  {
    var c := Capitalize(s);
    forall i | 0 <= i < |s| ensures IsDigit(c[i]) <==> IsDigit(s[i]) {
      if i == 0 {
        assert c[0] == ToUpper(s[0]);
      } else {
        assert c[i] == ToLower(s[i]);
      }
    }
  }

  const INT_MIN: int := -0x8000_0000
  const INT_MAX: int := 0x7fff_ffff

  /** The decimal value of a string of digits, read left to right. */
  function DigitsValue(s: string): nat
    requires AllDigits(s)
  {
    if |s| == 0 then 0
    else DigitsValue(s[..|s| - 1]) * 10 + (s[|s| - 1] as int - '0' as int)
  }

  /** k digits stand for a value below 10^k. */
  function Pow10(k: nat): nat
  {
    if k == 0 then 1 else 10 * Pow10(k - 1)
  }

  lemma {:induction false} DigitsValueBound(s: string)
    requires AllDigits(s)
    ensures DigitsValue(s) < Pow10(|s|)
  {
    if |s| > 0 {
      DigitsValueBound(s[..|s| - 1]);
    }
  }

  /** The value of four digits, digit by digit. */
  lemma FourDigitsValue(s: string)
    requires |s| == 4 && AllDigits(s)
    ensures DigitsValue(s) == 1000 * (s[0] as int - '0' as int) + 100 * (s[1] as int - '0' as int)
                              + 10 * (s[2] as int - '0' as int) + (s[3] as int - '0' as int)
  {
    var s3, s2, s1 := s[..3], s[..2], s[..1];
    assert s3[..2] == s2 && s2[..1] == s1 && s1[..0] == [];
    assert DigitsValue(s1) == s[0] as int - '0' as int;
    assert DigitsValue(s2) == DigitsValue(s1) * 10 + (s[1] as int - '0' as int);
    assert DigitsValue(s3) == DigitsValue(s2) * 10 + (s[2] as int - '0' as int);
  }

  /** The digits of an integer literal: what follows a leading sign, if there is one. */
  function Unsigned(s: string): string
  {
    if |s| > 0 && (s[0] == '-' || s[0] == '+') then s[1..] else s
  }

  /** An optional '+' or '-' followed by one or more digits, and nothing else. */
  predicate IsIntText(s: string)
  {
    |Unsigned(s)| > 0 && AllDigits(Unsigned(s))
  }

  /** The integer an integer literal denotes. */
  function SignedValue(s: string): int
    requires IsIntText(s)
  {
    if s[0] == '-' then 0 - (DigitsValue(Unsigned(s)) as int) else DigitsValue(Unsigned(s))
  }

  /**
   * Integer.parseInt(s) in radix 10: an optional '+' or '-', then at least one
   * digit, and the value must fit in a 32-bit int; None stands for the
   * NumberFormatException.
   */
  function ParseInt(s: string): (r: Option<int>)
    ensures r.Some? ==> INT_MIN <= r.value <= INT_MAX
    ensures r.Some? ==> |s| > 0 && (IsDigit(s[0]) || s[0] == '-' || s[0] == '+')
    ensures AllDigits(s) && |s| > 0 && DigitsValue(s) <= INT_MAX ==> r == Some(DigitsValue(s))
  {
    if |s| == 0 then None
    else if s[0] == '-' || s[0] == '+' then
      var body := s[1..];
      if |body| == 0 || !AllDigits(body) then None
      else
        var v: int := if s[0] == '-' then 0 - (DigitsValue(body) as int) else DigitsValue(body);
        if INT_MIN <= v <= INT_MAX then Some(v) else None
    else if !AllDigits(s) then None
    else if DigitsValue(s) <= INT_MAX then Some(DigitsValue(s))
    else None
  }

  /**
   * Integer.parseInt accepts exactly the integer literals whose value fits
   * in 32 bits, and reads each as the integer it denotes.
   */
  lemma ParseIntReadsIntText(s: string)
    ensures ParseInt(s).Some? <==> IsIntText(s) && INT_MIN <= SignedValue(s) <= INT_MAX
    ensures ParseInt(s).Some? ==> ParseInt(s).value == SignedValue(s)
  {
  }

  /** A trailing non-digit is refused, a sign alone is refused, and "-5" reads as minus five. */
  lemma ParseIntSamples()
    ensures ParseInt("1x") == None
    ensures ParseInt("-") == None && ParseInt("+") == None
    ensures ParseInt("-5") == Some(-5)
    ensures ParseInt("+7") == Some(7)
  {
    assert !IsDigit("1x"[1]);
    assert Unsigned("-5") == "5" && Unsigned("+7") == "7";
  }

  /** The decimal digit for 0 <= d < 10. */
  function Digit(d: nat): char
    requires d < 10
  {
    ('0' as int + d) as char
  }

  /** "" + n for a non-negative int: its decimal digits without leading zeros. */
  function NatToString(n: nat): (r: string)
    ensures |r| > 0 && AllDigits(r)
    decreases n
  {
    if n < 10 then [Digit(n)] else NatToString(n / 10) + [Digit(n % 10)]
  }

  lemma {:induction false} DigitsValueOfNatToString(n: nat)
    ensures DigitsValue(NatToString(n)) == n
    decreases n
  {
    var s := NatToString(n);
    if n >= 10 {
      DigitsValueOfNatToString(n / 10);
      assert s[..|s| - 1] == NatToString(n / 10);
    }
  }

  /** Integer.parseInt reads back what "" + n wrote. */
  lemma ParseNatToString(n: nat)
    requires n <= INT_MAX
    ensures ParseInt(NatToString(n)) == Some(n)
  {
    DigitsValueOfNatToString(n);
  }
}
