/**
 * The checks the console prompts apply to one line of input, and the
 * character-scan loops behind them. Each check returns the Verdict the
 * prompt loop acts on (see Prompts).
 */
module Validation {
  import opened Wrappers
  import opened Text
  import opened Datastore
  import opened Prompts

  /** Passport numbers are exactly this long. */
  const PASSPORT_LENGTH: nat := 10
  /** Names, countries, airline names and hubs are at most this long; so is a full name. */
  const FIELD_CAP: nat := 24
  /** YYYY-MM-DD */
  const DATE_LENGTH: nat := 10

  /** Every character is a digit or '-'. */
  predicate DateChars(s: string)
  {
    forall i :: 0 <= i < |s| ==> IsDigit(s[i]) || s[i] == '-'
  }

  /** What the date prompts accept: ten characters, each a digit or '-'. */
  predicate DateShape(s: string)
  {
    |s| == DATE_LENGTH && DateChars(s)
  }

  /**
   * The name check: `for (i = input.length(); --i >= 0;)` looking for
   * Character.isDigit, from the last character back, stopping at the first hit.
   */
  method ScanNoDigit(s: string) returns (valid: bool)
    ensures valid <==> NoDigits(s)
  {
    valid := true;
    var i := |s|;
    while i > 0
      invariant 0 <= i <= |s|
      invariant forall j :: i <= j < |s| ==> !IsDigit(s[j])
    {
      i := i - 1;
      if IsDigit(s[i]) {
        valid := false;
        break;
      }
    }
  }

  /** The date check: the same backward scan, refusing a character that is neither a digit nor '-'. */
  method ScanDateChars(s: string) returns (valid: bool)
    ensures valid <==> DateChars(s)
  {
    valid := true;
    var i := |s|;
    while i > 0
      invariant 0 <= i <= |s|
      invariant forall j :: i <= j < |s| ==> IsDigit(s[j]) || s[j] == '-'
    {
      i := i - 1;
      if !IsDigit(s[i]) && s[i] != '-' {
        valid := false;
        break;
      }
    }
  }

  /**
   * The country check refuses a character that is a digit and not a space;
   * the second test never matters, so it refuses exactly the strings with a digit.
   */
  method ScanCountry(s: string) returns (valid: bool)
    ensures valid <==> NoDigits(s)
  {
    valid := true;
    var i := |s|;
    while i > 0
      invariant 0 <= i <= |s|
      invariant forall j :: i <= j < |s| ==> !(IsDigit(s[j]) && s[j] != ' ')
    {
      i := i - 1;
      if IsDigit(s[i]) && s[i] != ' ' {
        valid := false;
        break;
      }
    }
  }

  /**
   * AddPassenger's passport prompt. The length is tested on the upper-cased
   * line, but the duplicate query is sent with the line as typed. A row
   * found costs a try; a failed query gives up.
   */
  function NewPassportVerdict(registered: string -> Reply<nat>, line: string): (v: Verdict)
    ensures v.Accept? <==> |line| == PASSPORT_LENGTH && registered(line) == Ok(0)
    ensures v.Abort? <==> line == [] || (|line| == PASSPORT_LENGTH && registered(line).DbError?)
    ensures !v.Repeat? && !v.Crash?
  {
    var passNum := UpperCase(line);
    if |passNum| == 0 then Abort
    else if |passNum| != PASSPORT_LENGTH then Retry
    else
      match registered(line)
      case DbError => Abort
      case Ok(rows) => if rows > 0 then Retry else Accept
  }

  /** The same prompt with the query sent for the upper-cased number, the one that gets stored. */
  function NewPassportVerdictUpper(registered: string -> Reply<nat>, line: string): (v: Verdict)
    ensures v.Accept? <==> |UpperCase(line)| == PASSPORT_LENGTH && registered(UpperCase(line)) == Ok(0)
  {
    var passNum := UpperCase(line);
    if |passNum| == 0 then Abort
    else if |passNum| != PASSPORT_LENGTH then Retry
    else
      match registered(passNum)
      case DbError => Abort
      case Ok(rows) => if rows > 0 then Retry else Accept
  }

  /**
   * A number registered in upper case and typed in lower case passes the
   * duplicate check as written, and is then stored upper-cased: a second
   * passenger with the same passport number.
   */
  lemma LowerCaseDuplicatePasses()
    ensures var registered := (q: string) => if q == "AB12345678" then Ok(1) else Ok(0);
            NewPassportVerdict(registered, "ab12345678").Accept?
            && UpperCase("ab12345678") == "AB12345678"
            && registered(UpperCase("ab12345678")) == Ok(1)
            && NewPassportVerdictUpper(registered, "ab12345678").Retry?
  {
    var registered := (q: string) => if q == "AB12345678" then Ok(1) else Ok(0);
    assert UpperCase("ab12345678") == "AB12345678";
    assert "ab12345678" != "AB12345678" by {
      assert "ab12345678"[0] != "AB12345678"[0];
    }
  }

  /**
   * BookFlight's passport prompt: the query is sent upper-cased. A match is
   * accepted, and no match or a failed query gives up at once, without a
   * second try.
   */
  function KnownPassportVerdict(passengers: string -> Reply<seq<string>>, line: string): (v: Verdict)
    ensures v.Accept? <==> |line| == PASSPORT_LENGTH && passengers(UpperCase(line)).Ok?
                           && |passengers(UpperCase(line)).value| > 0
    ensures v.Retry? <==> line != [] && |line| != PASSPORT_LENGTH
    ensures v.Abort? <==> line == [] || (|line| == PASSPORT_LENGTH && !(passengers(UpperCase(line)).Ok?
                                                                   && |passengers(UpperCase(line)).value| > 0))
    ensures !v.Repeat? && !v.Crash?
  {
    var passNum := UpperCase(line);
    if |passNum| == 0 then Abort
    else if |passNum| != PASSPORT_LENGTH then Retry
    else
      match passengers(passNum)
      case DbError => Abort
      case Ok(rows) => if |rows| > 0 then Accept else Abort
  }

  /** First and last name: an empty line gives up, a line with a digit costs a try. */
  function NameVerdict(line: string): (v: Verdict)
    ensures v.Accept? <==> |line| > 0 && NoDigits(line)
    ensures v.Abort? <==> line == []
    ensures !v.Repeat? && !v.Crash?
  {
    if |line| == 0 then Abort
    else if !NoDigits(line) then Retry
    else Accept
  }

  /** Date of birth and date of departure. */
  function DateVerdict(line: string): (v: Verdict)
    ensures v.Accept? <==> DateShape(line)
    ensures v.Abort? <==> line == []
    ensures !v.Repeat? && !v.Crash?
  {
    if |line| == 0 then Abort
    else if |line| != DATE_LENGTH then Retry
    else if !DateChars(line) then Retry
    else Accept
  }

  /** AddPassenger's country: at most 24 characters, none of them a digit. */
  function CountryVerdict(line: string): (v: Verdict)
    ensures v.Accept? <==> 0 < |line| <= FIELD_CAP && NoDigits(line)
    ensures v.Abort? <==> line == []
    ensures !v.Repeat? && !v.Crash?
  {
    if |line| == 0 then Abort
    else if |line| > FIELD_CAP then Retry
    else if !NoDigits(line) then Retry
    else Accept
  }

  /** The airline's country and hub, and the length rule for its name: at most 24 characters. */
  function CappedVerdict(line: string): (v: Verdict)
    ensures v.Accept? <==> 0 < |line| <= FIELD_CAP
    ensures v.Abort? <==> line == []
    ensures v.Retry? <==> |line| > FIELD_CAP
  {
    if |line| == 0 then Abort
    else if |line| > FIELD_CAP then Retry
    else Accept
  }

  /**
   * The year an airline was founded: at most four characters that
   * Integer.parseInt reads as a number of at least 1900. The whole body is
   * inside one try block, so an unparsable year costs a try like any other
   * refusal.
   */
  function FoundedVerdict(line: string): (v: Verdict)
    ensures v.Accept? <==> 0 < |line| <= 4 && ParseInt(line).Some? && ParseInt(line).value >= 1900
    ensures v.Abort? <==> line == []
    ensures !v.Repeat? && !v.Crash?
  {
    if |line| == 0 then Abort
    else if |line| > 4 then Retry
    else
      match ParseInt(line)
      case None => Retry
      case Some(y) => if y < 1900 then Retry else Accept
  }

  /** An accepted founding year lies between 1900 and 9999. */
  lemma FoundedYearInRange(line: string)
    requires FoundedVerdict(line).Accept?
    ensures ParseInt(line).Some? && 1900 <= ParseInt(line).value <= 9999
  {
    DigitsValueBound(Unsigned(line));
    assert Pow10(|Unsigned(line)|) <= Pow10(4) == 10000;
  }

  /** 1900 is the earliest year accepted; 1899 and a five-character year are refused. */
  lemma FoundedBoundary()
    ensures FoundedVerdict("1900").Accept?
    ensures FoundedVerdict("1899").Retry?
    ensures FoundedVerdict("01900").Retry?
    ensures FoundedVerdict("19a0").Retry?
  {
    FourDigitsValue("1900");
    FourDigitsValue("1899");
    assert !AllDigits("19a0") by { assert !IsDigit("19a0"[2]); }
  }

  /**
   * TakeCustomerReview's score: an integer from 0 to 5. Here Integer.parseInt
   * is outside any try block, so an unparsable score ends the operation.
   */
  function ScoreVerdict(line: string): (v: Verdict)
    ensures v.Accept? <==> ParseInt(line).Some? && 0 <= ParseInt(line).value <= 5
    ensures v.Crash? <==> line != [] && ParseInt(line).None?
    ensures v.Abort? <==> line == []
    ensures !v.Repeat?
  {
    if |line| == 0 then Abort
    else
      match ParseInt(line)
      case None => Crash
      case Some(n) => if n > 5 || n < 0 then Retry else Accept
  }

  /** "abc" as a score crashes the review instead of costing a try. */
  lemma UnparsableScoreCrashes()
    ensures ScoreVerdict("abc").Crash?
    ensures ScoreVerdict("6").Retry?
    ensures ScoreVerdict("5").Accept?
  {
    assert !IsDigit("abc"[0]);
    assert DigitsValue("6") == 6;
    assert DigitsValue("5") == 5;
  }

  /**
   * BookFlight's origin: accepted when the query finds the origin; a failed
   * query is printed and asked again without costing a try.
   */
  function OriginVerdict(origins: string -> Reply<nat>, line: string): (v: Verdict)
    ensures v.Accept? <==> line != [] && origins(line).Ok? && origins(line).value > 0
    ensures v.Repeat? <==> line != [] && origins(line).DbError?
    ensures v.Retry? <==> line != [] && origins(line) == Ok(0)
    ensures v.Abort? <==> line == []
  {
    if |line| == 0 then Abort
    else
      match origins(line)
      case DbError => Repeat
      case Ok(rows) => if rows > 0 then Accept else Retry
  }

  /** BookFlight's destination: accepted when some flight goes there from the chosen origin. */
  function DestinationVerdict(flights: string -> Reply<seq<string>>, line: string): (v: Verdict)
    ensures v.Accept? <==> line != [] && flights(line).Ok? && |flights(line).value| > 0
    ensures v.Repeat? <==> line != [] && flights(line).DbError?
    ensures v.Retry? <==> line != [] && flights(line) == Ok([])
    ensures v.Abort? <==> line == []
  {
    if |line| == 0 then Abort
    else
      match flights(line)
      case DbError => Repeat
      case Ok(rows) => if |rows| > 0 then Accept else Retry
  }
}
