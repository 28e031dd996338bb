/**
 * The state the Swing front end (AirBooking_GUI) keeps between events and
 * the handlers that change it: the list of DROP INDEX statements still to
 * send, the capped text fields, the year/month/day strings with the day
 * box's items, and the Add Passenger and Book Flight submit buttons.
 */
module Gui {
  import opened Wrappers
  import opened Text
  import opened Datastore
  import opened Calendar
  import opened KeyAllocator
  import opened BookingRef
  import opened Validation

  /** The text fields with a length cap. */
  datatype Field = PassportField | FirstNameField | LastNameField | CountryField | AirlineNameField | HubField

  const ALL_FIELDS: set<Field> :=
    {PassportField, FirstNameField, LastNameField, CountryField, AirlineNameField, HubField}

  const EMPTY_TEXT: map<Field, string> :=
    map[PassportField := "", FirstNameField := "", LastNameField := "", CountryField := "",
        AirlineNameField := "", HubField := ""]

  /** 10 for the passport number, 24 for the others. */
  function Cap(f: Field): nat
  {
    if f == PassportField then PASSPORT_LENGTH else FIELD_CAP
  }

  /**
   * The text listener: when the text is longer than the cap, the character
   * before the caret is deleted. A caret of 0 makes substring throw, and the
   * text stays as it is.
   */
  function Trim(text: string, caret: int, cap: nat): string
  {
    if |text| > cap && 1 <= caret <= |text| then text[..caret - 1] + text[caret..] else text
  }

  /** A keystroke that takes a full field over its cap is undone, leaving the field at the cap. */
  lemma OverflowKeystrokeUndone(before: string, p: nat, ch: char, cap: nat)
    requires |before| == cap && p <= |before|
    ensures Trim(before[..p] + [ch] + before[p..], p + 1, cap) == before
    ensures |Trim(before[..p] + [ch] + before[p..], p + 1, cap)| == cap
  {
    var typed := before[..p] + [ch] + before[p..];
    assert typed[..p] == before[..p];
    assert typed[p + 1..] == before[p..];
    assert before[..p] + before[p..] == before;
  }

  /** The listener never lengthens a text, and leaves one within the cap alone. */
  lemma TrimShortens(text: string, caret: int, cap: nat)
    ensures |Trim(text, caret, cap)| <= |text|
    ensures |text| <= cap ==> Trim(text, caret, cap) == text
    ensures |text| > cap && 1 <= caret <= |text| ==> |Trim(text, caret, cap)| == |text| - 1
  {
  }

  /** The value of a string the program only ever fills from its own boxes; 0 if it does not parse. */
  function Value(s: string): int
  {
    match ParseInt(s)
    case Some(v) => v
    case None => 0
  }

  /** Everything the handlers read and write, except indexList. */
  datatype FormState = FormState(text: map<Field, string>, passportNum: string, firstName: string,
                                 lastName: string, country: string, year: string, month: string,
                                 day: string, dayItems: seq<string>)

  /**
   * What the listeners keep true: every field has a text, the year and month
   * are items of their boxes, the day box holds the days of the chosen month,
   * and the chosen day is one of them.
   */
  predicate FormOk(s: FormState)
  {
    s.text.Keys == ALL_FIELDS
    && s.year in YearItems()
    && s.month in Labels(12)
    && s.dayItems == Labels(DaysInMonth(Value(s.year), Value(s.month)))
    && s.day in s.dayItems
  }

  /** The date a form holds is a real calendar date written YYYY-MM-DD. */
  lemma FormDateIsCalendarDate(s: FormState)
    requires FormOk(s)
    ensures DateShape(s.year + "-" + s.month + "-" + s.day)
    ensures 1900 <= Value(s.year) <= 2017 && 1 <= Value(s.month) <= 12
    ensures 1 <= Value(s.day) <= DaysInMonth(Value(s.year), Value(s.month))
  {
    YearItemsFacts();
    LabelsFacts(12);
    var max := DaysInMonth(Value(s.year), Value(s.month));
    LabelsFacts(max);
    var d := s.year + "-" + s.month + "-" + s.day;
    assert |d| == DATE_LENGTH;
    forall i | 0 <= i < |d| ensures IsDigit(d[i]) || d[i] == '-' {
      if i < 4 {
        assert d[i] == s.year[i];
      } else if 5 <= i < 7 {
        assert d[i] == s.month[i - 5];
      } else if 8 <= i {
        assert d[i] == s.day[i - 8];
      }
    }
  }

  /**
   * The GUI's error test for Add Passenger: a field left empty, a passport
   * number shorter than ten, or first and last name together longer than 24.
   */
  function FormError(passport: string, first: string, last: string, country: string): bool
  {
    (|passport| == 0 || |first| == 0 || |last| == 0 || |country| == 0)
    || (|passport| < PASSPORT_LENGTH && |passport| != 0)
    || |first| + |last| > FIELD_CAP
  }

  /** The name the GUI stores: both names capitalized, with a space between. */
  function StoredName(first: string, last: string): string
    requires |first| > 0 && |last| > 0
  {
    Capitalize(first) + " " + Capitalize(last)
  }

  /**
   * A form that passes has every field filled, a passport number of at
   * least ten characters (exactly ten, given the field's cap), and a stored
   * name of at most 25 characters: the space is not counted.
   */
  lemma PassingFormIsFilled(passport: string, first: string, last: string, country: string)
    requires !FormError(passport, first, last, country)
    ensures |passport| >= PASSPORT_LENGTH && |first| > 0 && |last| > 0 && |country| > 0
    ensures |StoredName(first, last)| <= FIELD_CAP + 1
  {
  }

  /** Two twelve-letter names pass the check, and the stored name has 25 characters. */
  lemma GuiNameCanExceedCap()
    ensures !FormError("AB12345678", "abcdefghijkl", "mnopqrstuvwx", "Peru")
    ensures |StoredName("abcdefghijkl", "mnopqrstuvwx")| == FIELD_CAP + 1
  {
  }

  /** Unlike the console, the GUI form does not look for digits in the names. */
  lemma GuiAcceptsDigitsInNames()
    ensures !FormError("AB12345678", "R2", "D2", "Peru")
    ensures !NoDigits(StoredName("R2", "D2"))
  {
    assert StoredName("R2", "D2")[1] == '2';
  }

  /** The check with the space counted: a passing form then stores a name of at most 24 characters. */
  function FormErrorCountingSpace(passport: string, first: string, last: string, country: string): (e: bool)
    ensures !e ==> |first| > 0 && |last| > 0 && |StoredName(first, last)| <= FIELD_CAP
    ensures !e ==> !FormError(passport, first, last, country)
  {
    (|passport| == 0 || |first| == 0 || |last| == 0 || |country| == 0)
    || (|passport| < PASSPORT_LENGTH && |passport| != 0)
    || |first| + 1 + |last| > FIELD_CAP
  }

  /** Drop_Index against the outcomes of successive DROP statements (true: it succeeded). */
  function DropRun(list: seq<string>, outcomes: seq<bool>): seq<string>
    decreases |outcomes|
  {
    if list == [] || outcomes == [] then list
    else if outcomes[0] then DropRun(list[1..], outcomes[1..])
    else DropRun(list, outcomes[1..])
  }

  /** The statements Drop_Index sends: always the front of the list. */
  function DropSent(list: seq<string>, outcomes: seq<bool>): seq<string>
    decreases |outcomes|
  {
    if list == [] || outcomes == [] then []
    else if outcomes[0] then [list[0]] + DropSent(list[1..], outcomes[1..])
    else [list[0]] + DropSent(list, outcomes[1..])
  }

  function Successes(outcomes: seq<bool>): nat
  {
    if outcomes == [] then 0 else (if outcomes[0] then 1 else 0) + Successes(outcomes[1..])
  }

  function Min(a: nat, b: nat): nat
  {
    if a <= b then a else b
  }

  /**
   * Drop_Index removes statements from the front only, one per successful
   * DROP, until the list is empty: what is left is the list without its
   * first min(|list|, successes) entries.
   */
  lemma {:induction false} DropRunRemovesPrefix(list: seq<string>, outcomes: seq<bool>)
    ensures DropRun(list, outcomes) == list[Min(|list|, Successes(outcomes))..]
    decreases |outcomes|
  {
    if list != [] && outcomes != [] {
      DropRunRemovesPrefix(if outcomes[0] then list[1..] else list, outcomes[1..]);
      if outcomes[0] {
        assert list[1..][Min(|list| - 1, Successes(outcomes[1..]))..]
               == list[Min(|list|, Successes(outcomes))..];
      }
    }
  }

  /** A DROP that fails stays at the front and is sent again. */
  lemma FailedDropIsResent(list: seq<string>, outcomes: seq<bool>)
    requires list != [] && |outcomes| >= 2 && !outcomes[0]
    ensures |DropSent(list, outcomes)| >= 2
    ensures DropSent(list, outcomes)[0] == DropSent(list, outcomes)[1] == list[0]
  {
    assert DropSent(list, outcomes) == [list[0]] + DropSent(list, outcomes[1..]);
    assert DropSent(list, outcomes[1..])[0] == list[0];
  }

  /** Every statement sent is one of the list's. */
  lemma {:induction false} DropSentFromList(list: seq<string>, outcomes: seq<bool>)
    ensures forall i :: 0 <= i < |DropSent(list, outcomes)| ==> DropSent(list, outcomes)[i] in list
    decreases |outcomes|
  {
    if list != [] && outcomes != [] {
      var rest := if outcomes[0] then list[1..] else list;
      DropSentFromList(rest, outcomes[1..]);
      assert forall x :: x in rest ==> x in list;
    }
  }

  class Frame {
    var indexList: seq<string>
    var text: map<Field, string>
    var passportNum: string
    var firstName: string
    var lastName: string
    var country: string
    var year: string
    var month: string
    var day: string
    var dayItems: seq<string>

    function Form(): FormState
      reads this
    {
      FormState(text, passportNum, firstName, lastName, country, year, month, day, dayItems)
    }

    predicate Valid()
      reads this
    {
      FormOk(Form())
    }

    constructor ()
      ensures Valid()
      ensures indexList == []
      ensures Form() == FormState(EMPTY_TEXT, "", "", "", "", "2017", "01", "01", Labels(31))
    {
      indexList := [];
      text := EMPTY_TEXT;
      passportNum := "";
      firstName := "";
      lastName := "";
      country := "";
      year := "2017";
      month := "01";
      day := "01";
      dayItems := Labels(31);
      new;
      DefaultDateIsValid();
    }

    /** Create_Index: the DROP statement is queued only when the CREATE succeeded. */
    method CreateIndex(drop: string, created: bool)
      modifies this
      ensures indexList == old(indexList) + (if created then [drop] else [])
      ensures Form() == old(Form())
    {
      if created {
        indexList := indexList + [drop];
      }
    }

    /**
     * Drop_Index against the outcomes of successive DROP statements. The
     * source retries until the list is empty; the model stops when the
     * outcomes run out. sent lists the statements in the order they were sent.
     */
    method DropIndex(outcomes: seq<bool>) returns (sent: seq<string>)
      modifies this
      ensures indexList == DropRun(old(indexList), outcomes)
      ensures sent == DropSent(old(indexList), outcomes)
      ensures Form() == old(Form())
    {
      sent := [];
      var i := 0;
      while indexList != [] && i < |outcomes|
        invariant 0 <= i <= |outcomes|
        invariant DropRun(indexList, outcomes[i..]) == DropRun(old(indexList), outcomes)
        invariant sent + DropSent(indexList, outcomes[i..]) == DropSent(old(indexList), outcomes)
        invariant Form() == old(Form())
        decreases |outcomes| - i
      {
        assert outcomes[i..][1..] == outcomes[i + 1..];
        sent := sent + [indexList[0]];
        if outcomes[i] {
          indexList := indexList[1..];
        }
        i := i + 1;
      }
    }

    /** A keystroke or paste in field f, followed by that field's text listener. */
    method OnTextChanged(f: Field, typed: string, caret: int)
      requires Valid()
      modifies this
      ensures Valid()
      ensures Form() == old(Form()).(text := old(text)[f := Trim(typed, caret, Cap(f))])
      ensures indexList == old(indexList)
    {
      var t := typed;
      if |t| > Cap(f) && 1 <= caret <= |t| {
        t := t[..caret - 1] + t[caret..];
      }
      text := text[f := t];
    }

    /*
     * The three date boxes have item listeners, which run only when the
     * selection changes to another item of the box.
     */

    /**
     * The year box's listener: the year is set, and when February is shown
     * the day box is refilled with that February's days and "01" selected.
     */
    method OnYearSelected(item: string)
      requires Valid() && item in YearItems() && item != year
      modifies this
      ensures Valid()
      ensures year == item && month == old(month)
      ensures Value(month) == 2 ==> dayItems == Labels(FebruaryDays(Value(item))) && day == "01"
      ensures Value(month) != 2 ==> dayItems == old(dayItems) && day == old(day)
      ensures Form().(year := old(year), dayItems := old(dayItems), day := old(day)) == old(Form())
      ensures indexList == old(indexList)
    {
      ghost var before := Form();
      year := item;
      if Value(month) == 2 {
        var max := FebruaryDays(Value(year));
        dayItems := FillLabels(max);
        day := "01";
      }
      YearChangeKeepsFormOk(before, item);
      if Value(month) == 2 {
        assert Form() == before.(year := item, dayItems := Labels(FebruaryDays(Value(item))), day := "01");
      } else {
        assert Form() == before.(year := item);
      }
    }

    /**
     * The month box's listener: the day box is refilled with the month's
     * days, and selecting "01" in it runs the day listener, so day becomes "01".
     */
    method OnMonthSelected(item: string)
      requires Valid() && item in Labels(12) && item != month
      modifies this
      ensures Valid()
      ensures month == item && year == old(year)
      ensures dayItems == Labels(DaysInMonth(Value(year), Value(item))) && day == "01"
      ensures Form().(month := old(month), dayItems := old(dayItems), day := old(day)) == old(Form())
      ensures indexList == old(indexList)
    {
      ghost var before := Form();
      month := item;
      var t := Value(month);
      var max := 0;
      if t == 2 {
        max := FebruaryDays(Value(year));
      } else if t == 1 || t == 3 || t == 5 || t == 7 || t == 8 || t == 10 || t == 12 {
        max := 31;
      } else {
        max := 30;
      }
      dayItems := FillLabels(max);
      day := "01";
      MonthChangeKeepsFormOk(before, item);
      assert Form() == before.(month := item, dayItems := Labels(DaysInMonth(Value(before.year), Value(item))), day := "01");
    }

    /** The day box's listener. */
    method OnDaySelected(item: string)
      requires Valid() && item in dayItems && item != day
      modifies this
      ensures Valid()
      ensures Form() == old(Form()).(day := item)
      ensures indexList == old(indexList)
    {
      day := item;
    }

    /** After a successful submit: the boxes go back to 2017-01-01, which refills the day box for January. */
    method ResetDate()
      requires Valid()
      modifies this
      ensures Valid()
      ensures Form() == old(Form()).(year := "2017", month := "01", day := "01", dayItems := Labels(31))
      ensures indexList == old(indexList)
    {
      ghost var after := Form().(year := "2017", month := "01", day := "01", dayItems := Labels(31));
      DefaultDateKeepsFormOk(Form());
      year := "2017";
      month := "01";
      day := "01";
      dayItems := FillLabels(31);
      assert Form() == after;
    }

    /** Choice_One's submit button, as AddPassengerSubmit states it. */
    method SubmitAddPassenger(registered: string -> Reply<nat>, pidRows: Reply<seq<seq<int>>>, insertOk: bool)
      returns (inserted: Option<Passenger>)
      requires Valid()
      modifies this
      ensures Valid()
      ensures Submitted(Form(), inserted) == AddPassengerSubmit(old(Form()), registered, pidRows, insertOk)
      ensures indexList == old(indexList)
    {
      ghost var before := Form();
      ghost var spec := AddPassengerSubmit(before, registered, pidRows, insertOk);
      passportNum := UpperCase(text[PassportField]);
      firstName := text[FirstNameField];
      lastName := text[LastNameField];
      country := text[CountryField];
      inserted := None;
      assert Valid();
      if FormError(passportNum, firstName, lastName, country) {
        assert spec == Submitted(Form(), None);
        return;
      }
      var rowCount := registered(passportNum);
      if rowCount.DbError? {
        assert spec == Submitted(Form(), None);
        return;
      }
      if rowCount.value == 0 {
        if pidRows.DbError? {
          assert spec == Submitted(Form(), None);
          return;
        }
        var pid := AvailableId(pidRows.value);
        var bdate := year + "-" + month + "-" + day;
        var row := Passenger(pid, passportNum, StoredName(firstName, lastName), bdate, country);
        if !insertOk {
          assert spec == Submitted(Form(), None);
          return;
        }
        inserted := Some(row);
        assert spec.inserted == inserted;
        text := text[PassportField := ""][FirstNameField := ""][LastNameField := ""][CountryField := ""];
        passportNum := "";
        firstName := "";
        lastName := "";
        country := "";
        assert Valid();
        ResetDate();
        assert Form() == spec.form;
      } else {
        text := text[PassportField := ""];
        assert spec == Submitted(Form(), None);
      }
    }

    /** Choice_Two's submit button, as BookFlightSubmit states it. */
    method SubmitBookFlight(passengers: string -> Reply<seq<string>>, draws: seq<Draw>,
                            booked: string -> Reply<nat>, flights: Reply<seq<string>>, insertOk: bool)
      returns (inserted: Option<Booking>)
      requires Valid()
      modifies this
      ensures Valid()
      ensures Booked(Form(), inserted) == BookFlightSubmit(old(Form()), passengers, draws, booked, flights, insertOk)
      ensures indexList == old(indexList)
    {
      passportNum := UpperCase(text[PassportField]);
      inserted := None;
      if |passportNum| == 0 || |passportNum| < PASSPORT_LENGTH {
        return;
      }
      var result := passengers(passportNum);
      if result.DbError? {
        return;
      }
      if |result.value| == 0 {
        text := text[PassportField := ""];
        return;
      }
      var pid := result.value[0];
      var bookref, ended := GuiBookRef(draws, booked);
      if !ended || flights.DbError? || |flights.value| == 0 || !insertOk {
        return;
      }
      var departure := year + "-" + month + "-" + day;
      inserted := Some(Booking(bookref, departure, flights.value[0], pid));
      text := text[PassportField := ""];
      passportNum := "";
      ResetDate();
    }
  }

  /** The form after a submit, and the row inserted, if any. */
  datatype Submitted = Submitted(form: FormState, inserted: Option<Passenger>)

  datatype Booked = Booked(form: FormState, inserted: Option<Booking>)

  /** The date as the submit handlers write it into the INSERT. */
  function DateText(s: FormState): string
  {
    s.year + "-" + s.month + "-" + s.day
  }

  /** The date boxes after a successful submit: back at 2017-01-01. */
  function ResetForm(s: FormState): FormState
  {
    s.(year := "2017", month := "01", day := "01", dayItems := Labels(31))
  }

  /**
   * Choice_One's submit button. The four texts are read (the passport
   * upper-cased) and checked; then the passport query (registered gives
   * its row count), the pID gap scan over SELECT pID FROM Passenger, whose
   * rows come unsorted, and the INSERT (insertOk says whether it went
   * through). After a successful INSERT the four passenger fields and the
   * date are reset; the airline fields are not touched. For a number
   * already registered the passport field is cleared. A failed query or
   * INSERT ends the handler where it stands, with the form still filled.
   */
  function AddPassengerSubmit(s: FormState, registered: string -> Reply<nat>,
                              pidRows: Reply<seq<seq<int>>>, insertOk: bool): Submitted
    requires s.text.Keys == ALL_FIELDS
  {
    var p := UpperCase(s.text[PassportField]);
    var f := s.text[FirstNameField];
    var l := s.text[LastNameField];
    var c := s.text[CountryField];
    var read := s.(passportNum := p, firstName := f, lastName := l, country := c);
    if FormError(p, f, l, c) || registered(p).DbError? then Submitted(read, None)
    else if registered(p).value > 0 then Submitted(read.(text := s.text[PassportField := ""]), None)
    else if pidRows.DbError? || !insertOk then Submitted(read, None)
    else
      var cleared := s.text[PassportField := ""][FirstNameField := ""][LastNameField := ""][CountryField := ""];
      Submitted(ResetForm(s.(text := cleared, passportNum := "", firstName := "", lastName := "", country := "")),
                Some(Passenger(ScanRows(0, pidRows.value), p, StoredName(f, l), DateText(s), c)))
  }

  /**
   * Choice_Two's submit button: passport check, the passenger query
   * (passengers gives the pIDs found), the accumulating booking-reference
   * loop, the flight query for the chosen origin and destination (flights)
   * and the INSERT, with the departure taken from the date (insertOk says
   * whether the INSERT went through). A failed query or INSERT, or no
   * flight, ends the handler; so, in the model, does an oracle that runs out
   * before the loop ends.
   */
  function BookFlightSubmit(s: FormState, passengers: string -> Reply<seq<string>>, draws: seq<Draw>,
                            booked: string -> Reply<nat>, flights: Reply<seq<string>>, insertOk: bool): Booked
    requires s.text.Keys == ALL_FIELDS
  {
    var p := UpperCase(s.text[PassportField]);
    var read := s.(passportNum := p);
    if |p| == 0 || |p| < PASSPORT_LENGTH || passengers(p).DbError? then Booked(read, None)
    else if |passengers(p).value| == 0 then Booked(read.(text := s.text[PassportField := ""]), None)
    else
      var search := GuiSearch(draws, booked, 0, "");
      if search.OutOfDraws? || flights.DbError? || |flights.value| == 0 || !insertOk then Booked(read, None)
      else
        Booked(ResetForm(s.(text := s.text[PassportField := ""], passportNum := "")),
               Some(Booking(search.bookref, DateText(s), flights.value[0], passengers(p).value[0])))
  }

  /**
   * A passenger is added exactly when the form passes, the upper-cased
   * number is not registered, the pID query answers and the INSERT goes
   * through; the row holds the scanned pID, the capitalized names, the
   * form's date, which is a real YYYY-MM-DD date, and the country; the four
   * passenger fields are emptied and the airline fields kept; and the form
   * stays consistent.
   */
  lemma AddPassengerSubmitFacts(s: FormState, registered: string -> Reply<nat>, pidRows: Reply<seq<seq<int>>>,
                                insertOk: bool)
    requires FormOk(s)
    ensures var p := UpperCase(s.text[PassportField]);
            var f := s.text[FirstNameField];
            var l := s.text[LastNameField];
            var c := s.text[CountryField];
            var r := AddPassengerSubmit(s, registered, pidRows, insertOk);
            && FormOk(r.form)
            && (r.inserted.Some? <==> !FormError(p, f, l, c) && registered(p) == Ok(0) && pidRows.Ok? && insertOk)
            && (r.inserted.Some? ==>
                  |f| > 0 && |l| > 0 && |r.inserted.value.passNum| >= PASSPORT_LENGTH
                  && r.inserted.value.passNum == p && r.inserted.value.country == c
                  && r.inserted.value.fullName == StoredName(f, l)
                  && r.inserted.value.pid == ScanRows(0, pidRows.value)
                  && r.inserted.value.bdate == DateText(s) && DateShape(r.inserted.value.bdate)
                  && r.form.text == s.text[PassportField := ""][FirstNameField := ""][LastNameField := ""][CountryField := ""]
                  && DateText(r.form) == "2017-01-01")
            && (r.inserted.None? ==> r.form.year == s.year && r.form.month == s.month && r.form.day == s.day)
  {
    var p := UpperCase(s.text[PassportField]);
    var f := s.text[FirstNameField];
    var l := s.text[LastNameField];
    var c := s.text[CountryField];
    var r := AddPassengerSubmit(s, registered, pidRows, insertOk);
    var read := s.(passportNum := p, firstName := f, lastName := l, country := c);
    if FormError(p, f, l, c) || registered(p).DbError? {
      assert r == Submitted(read, None);
    } else if registered(p).value > 0 {
      assert r == Submitted(read.(text := s.text[PassportField := ""]), None);
    } else if pidRows.DbError? || !insertOk {
      assert r == Submitted(read, None);
    } else {
      var cleared := s.text[PassportField := ""][FirstNameField := ""][LastNameField := ""][CountryField := ""];
      var emptied := s.(text := cleared, passportNum := "", firstName := "", lastName := "", country := "");
      assert r.form == ResetForm(emptied);
      FormDateIsCalendarDate(s);
      DefaultDateKeepsFormOk(emptied);
      PassingFormIsFilled(p, f, l, c);
    }
  }

  /** A number already registered is turned away and its field emptied, the other fields kept. */
  lemma RegisteredPassportClearsField(s: FormState, registered: string -> Reply<nat>, pidRows: Reply<seq<seq<int>>>,
                                      insertOk: bool)
    requires FormOk(s)
    requires var p := UpperCase(s.text[PassportField]);
             !FormError(p, s.text[FirstNameField], s.text[LastNameField], s.text[CountryField])
             && registered(p).Ok? && registered(p).value > 0
    ensures AddPassengerSubmit(s, registered, pidRows, insertOk).inserted == None
    ensures AddPassengerSubmit(s, registered, pidRows, insertOk).form.text == s.text[PassportField := ""]
  {
  }

  /**
   * A booking is made exactly when the passport is long enough and known,
   * the reference loop ends on a free reference and a flight exists; the row
   * carries that reference, the form's date, the first flight and the first
   * pID. An INSERT that fails for a known passenger leaves the form as it was.
   */
  lemma BookFlightSubmitFacts(s: FormState, passengers: string -> Reply<seq<string>>, draws: seq<Draw>,
                              booked: string -> Reply<nat>, flights: Reply<seq<string>>, insertOk: bool)
    requires FormOk(s)
    ensures var p := UpperCase(s.text[PassportField]);
            var r := BookFlightSubmit(s, passengers, draws, booked, flights, insertOk);
            && FormOk(r.form)
            && (r.inserted.Some? <==>
                  |p| >= PASSPORT_LENGTH && passengers(p).Ok? && |passengers(p).value| > 0
                  && GuiSearch(draws, booked, 0, "").Chosen? && flights.Ok? && |flights.value| > 0 && insertOk)
            && (r.inserted.Some? ==>
                  r.inserted.value.bookref == GuiSearch(draws, booked, 0, "").bookref
                  && !Taken(booked(r.inserted.value.bookref))
                  && |r.inserted.value.bookref| % 10 == 0 && |r.inserted.value.bookref| >= 10
                  && r.inserted.value.pid == passengers(p).value[0]
                  && r.inserted.value.flightNum == flights.value[0]
                  && DateShape(r.inserted.value.departure) && r.inserted.value.departure == DateText(s)
                  && r.form.text == s.text[PassportField := ""] && DateText(r.form) == "2017-01-01")
            && (!insertOk && passengers(p).Ok? && |passengers(p).value| > 0 ==>
                  r.inserted == None && r.form.text == s.text && DateText(r.form) == DateText(s))
  {
    var p := UpperCase(s.text[PassportField]);
    var r := BookFlightSubmit(s, passengers, draws, booked, flights, insertOk);
    var read := s.(passportNum := p);
    var search := GuiSearch(draws, booked, 0, "");
    if |p| == 0 || |p| < PASSPORT_LENGTH || passengers(p).DbError? {
      assert r == Booked(read, None);
    } else if |passengers(p).value| == 0 {
      assert r == Booked(read.(text := s.text[PassportField := ""]), None);
    } else if search.OutOfDraws? || flights.DbError? || |flights.value| == 0 || !insertOk {
      assert r == Booked(read, None);
    } else {
      var cleared := s.(text := s.text[PassportField := ""], passportNum := "");
      assert r.form == ResetForm(cleared);
      FormDateIsCalendarDate(s);
      DefaultDateKeepsFormOk(cleared);
      GuiRefLengthCountsCollisions(draws, booked);
      GuiChosenIsFree(draws, booked, 0, "");
    }
  }

  lemma DefaultDateIsValid()
    ensures "2017" in YearItems() && Value("2017") == 2017
    ensures "01" in Labels(12) && Value("01") == 1
    ensures "01" in Labels(31)
  {
    YearItemsFacts();
    assert NatToString(2017) == "2017" by {
      assert NatToString(201) == "201" by {
        assert NatToString(20) == "20" by {
          assert NatToString(2) == "2";
        }
      }
    }
    assert YearItems()[117] == "2017";
    LabelsFacts(12);
    LabelsFacts(31);
  }

  /** Choosing another year keeps the form consistent: only February depends on the year. */
  lemma YearChangeKeepsFormOk(s: FormState, item: string)
    requires FormOk(s) && item in YearItems()
    ensures Value(s.month) == 2 ==> FormOk(s.(year := item, dayItems := Labels(FebruaryDays(Value(item))), day := "01"))
    ensures Value(s.month) != 2 ==> FormOk(s.(year := item))
  {
    if Value(s.month) == 2 {
      LabelsFacts(FebruaryDays(Value(item)));
    }
  }

  /** Choosing another month keeps the form consistent: the day box holds that month's days, from "01". */
  lemma MonthChangeKeepsFormOk(s: FormState, item: string)
    requires FormOk(s) && item in Labels(12)
    ensures FormOk(s.(month := item, dayItems := Labels(DaysInMonth(Value(s.year), Value(item))), day := "01"))
  {
    LabelsFacts(DaysInMonth(Value(s.year), Value(item)));
  }

  lemma DefaultDateKeepsFormOk(s: FormState)
    requires FormOk(s)
    ensures FormOk(s.(year := "2017", month := "01", day := "01", dayItems := Labels(31)))
  {
    DefaultDateIsValid();
  }

  /**
   * The INSERT comes before the resets in the same try block, so when it
   * fails after every check passed, nothing is added and the form keeps
   * its texts and its date.
   */
  lemma FailedInsertKeepsForm(s: FormState, registered: string -> Reply<nat>, pidRows: Reply<seq<seq<int>>>)
    requires FormOk(s)
    requires var p := UpperCase(s.text[PassportField]);
             !FormError(p, s.text[FirstNameField], s.text[LastNameField], s.text[CountryField])
             && registered(p) == Ok(0) && pidRows.Ok?
    ensures AddPassengerSubmit(s, registered, pidRows, false).inserted == None
    ensures AddPassengerSubmit(s, registered, pidRows, false).form.text == s.text
    ensures DateText(AddPassengerSubmit(s, registered, pidRows, false).form) == DateText(s)
    ensures AddPassengerSubmit(s, registered, pidRows, true).inserted.Some?
  {
  }
}
