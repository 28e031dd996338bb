/**
 * AddPassenger of the console front end: a `do { ... } while (true)` over
 * an int state. States 0 to 4 ask for passport number, first name, last
 * name, date of birth and country, each in a three-try prompt loop; state 5
 * picks the pID with the gap scan, state 6 sends the INSERT, and any other
 * state leaves.
 */
module AddPassengerCli {
  import opened Wrappers
  import opened Text
  import opened Datastore
  import opened Prompts
  import opened Validation
  import opened KeyAllocator

  /**
   * The database as AddPassenger sees it: the row count for a passport
   * query, and the rows of SELECT pID FROM Passenger (in the order the
   * database returns them).
   */
  datatype Db = Db(registered: string -> Reply<nat>, pidRows: Reply<seq<seq<int>>>)

  /** The method's local variables, plus how much of the script has been read and the INSERT sent. */
  datatype Config = Config(state: int, pos: nat, passNum: string, fullName: string,
                           bdate: string, country: string, pid: int, inserted: Option<Passenger>)

  const START: Config := Config(0, 0, "", "", "", "", 0, None)

  function PassportCheck(db: Db): string -> Verdict
  {
    (line: string) => NewPassportVerdict(db.registered, line)
  }

  /** The pID the gap scan picks; it stays as it was when the query fails. */
  function PickPid(rows: Reply<seq<seq<int>>>, pid: int): int
  {
    match rows
    case Ok(r) => ScanRows(0, r)
    case DbError => pid
  }

  /** State 0: passport number. passNum holds the last line read, upper-cased. */
  function AskPassport(c: Config, script: seq<string>, db: Db): (d: Config)
    requires c.pos <= |script|
    ensures c.pos <= d.pos <= |script|
  {
    var t := Attempts(script, PassportCheck(db), c.pos, 3);
    c.(state := if t.counter > 0 then 1 else -1, pos := t.used,
       passNum := if t.used > c.pos then UpperCase(script[t.used - 1]) else c.passNum)
  }

  /** State 1: first name, stored capitalized and followed by a space. */
  function AskFirstName(c: Config, script: seq<string>): (d: Config)
    requires c.pos <= |script|
    ensures c.pos <= d.pos <= |script|
  {
    var t := Attempts(script, NameVerdict, c.pos, 3);
    if t.counter > 0 then c.(state := 2, pos := t.used, fullName := Capitalize(script[t.used - 1]) + " ")
    else c.(state := -1, pos := t.used)
  }

  /** State 2: last name, appended capitalized; then the full-name length check, whatever happened. */
  function AskLastName(c: Config, script: seq<string>): (d: Config)
    requires c.pos <= |script|
    ensures c.pos <= d.pos <= |script|
  {
    var t := Attempts(script, NameVerdict, c.pos, 3);
    var name := if t.counter > 0 then c.fullName + Capitalize(script[t.used - 1]) else c.fullName;
    if |name| > FIELD_CAP then c.(state := 1, pos := t.used, fullName := "")
    else c.(state := if t.counter > 0 then 3 else -1, pos := t.used, fullName := name)
  }

  /** State 3: date of birth; the next state is 4 whether or not a date was accepted. */
  function AskBirthDate(c: Config, script: seq<string>): (d: Config)
    requires c.pos <= |script|
    ensures c.pos <= d.pos <= |script|
  {
    var t := Attempts(script, DateVerdict, c.pos, 3);
    c.(state := 4, pos := t.used, bdate := if t.counter > 0 then script[t.used - 1] else c.bdate)
  }

  /** State 4: country; the next state is 5 whether or not a country was accepted. */
  function AskCountry(c: Config, script: seq<string>): (d: Config)
    requires c.pos <= |script|
    ensures c.pos <= d.pos <= |script|
  {
    var t := Attempts(script, CountryVerdict, c.pos, 3);
    c.(state := 5, pos := t.used, country := if t.counter > 0 then script[t.used - 1] else c.country)
  }

  /** One pass of the outer loop: the branch for the current state. */
  function Step(c: Config, script: seq<string>, db: Db): (d: Config)
    requires c.pos <= |script|
    ensures c.pos <= d.pos <= |script|
  {
    if c.state == 0 then AskPassport(c, script, db)
    else if c.state == 1 then AskFirstName(c, script)
    else if c.state == 2 then AskLastName(c, script)
    else if c.state == 3 then AskBirthDate(c, script)
    else if c.state == 4 then AskCountry(c, script)
    else if c.state == 5 then c.(state := 6, pid := PickPid(db.pidRows, c.pid))
    else if c.state == 6 then
      c.(state := -1, inserted := Some(Passenger(c.pid, c.passNum, c.fullName, c.bdate, c.country)))
    else c
  }

  /**
   * Every pass reads a line or moves to a state further along; the one
   * backward move (2 to 1) without reading happens only when the script is
   * used up, and then state 1 can only leave.
   */
  function Phase(c: Config, script: seq<string>): nat
  {
    if c.state == 0 then 8
    else if c.state == 1 then (if c.pos == |script| then 1 else 7)
    else if c.state == 2 then 6
    else if c.state == 3 then 5
    else if c.state == 4 then 4
    else if c.state == 5 then 3
    else if c.state == 6 then 2
    else 0
  }

  lemma StepProgress(c: Config, script: seq<string>, db: Db)
    requires c.pos <= |script| && 0 <= c.state <= 6
    ensures Step(c, script, db).pos > c.pos
            || (Step(c, script, db).pos == c.pos && Phase(Step(c, script, db), script) < Phase(c, script))
  {
    if c.state <= 2 && c.pos < |script| {
      var check := if c.state == 0 then PassportCheck(db) else NameVerdict;
      assert Attempts(script, check, c.pos, 3).used > c.pos;
    }
  }

  /** The whole operation from a given configuration. */
  function Run(c: Config, script: seq<string>, db: Db): (d: Config)
    requires c.pos <= |script|
    ensures d.state < 0 || d.state > 6
    decreases |script| - c.pos, Phase(c, script)
  {
    if c.state < 0 || c.state > 6 then c
    else
      StepProgress(c, script, db);
      Run(Step(c, script, db), script, db)
  }

  /** The branch for state 0. */
  method PassportState(c: Config, script: seq<string>, db: Db) returns (d: Config)
    requires c.pos <= |script|
    ensures d == AskPassport(c, script, db)
  {
    var t := PromptLoop(script, PassportCheck(db), c.pos);
    var passNum := c.passNum;
    if t.used > c.pos {
      passNum := UpperCase(script[t.used - 1]);
    }
    var state := if t.counter > 0 then 1 else -1;
    d := c.(state := state, pos := t.used, passNum := passNum);
  }

  /** The branch for state 1. */
  method FirstNameState(c: Config, script: seq<string>) returns (d: Config)
    requires c.pos <= |script|
    ensures d == AskFirstName(c, script)
  {
    var t := PromptLoop(script, NameVerdict, c.pos);
    if t.counter > 0 {
      d := c.(state := 2, pos := t.used, fullName := Capitalize(script[t.used - 1]) + " ");
    } else {
      d := c.(state := -1, pos := t.used);
    }
  }

  /** The branch for state 2. */
  method LastNameState(c: Config, script: seq<string>) returns (d: Config)
    requires c.pos <= |script|
    ensures d == AskLastName(c, script)
  {
    var t := PromptLoop(script, NameVerdict, c.pos);
    var fullName := c.fullName;
    if t.counter > 0 {
      fullName := fullName + Capitalize(script[t.used - 1]);
    }
    if |fullName| > FIELD_CAP {
      d := c.(state := 1, pos := t.used, fullName := "");
    } else {
      d := c.(state := if t.counter > 0 then 3 else -1, pos := t.used, fullName := fullName);
    }
  }

  /** The branch for state 3. */
  method BirthDateState(c: Config, script: seq<string>) returns (d: Config)
    requires c.pos <= |script|
    ensures d == AskBirthDate(c, script)
  {
    var t := PromptLoop(script, DateVerdict, c.pos);
    d := c;
    if t.counter > 0 {
      d := d.(bdate := script[t.used - 1]);
    }
    d := d.(pos := t.used, state := 4);
  }

  /** The branch for state 4. */
  method CountryState(c: Config, script: seq<string>) returns (d: Config)
    requires c.pos <= |script|
    ensures d == AskCountry(c, script)
  {
    var t := PromptLoop(script, CountryVerdict, c.pos);
    d := c;
    if t.counter > 0 {
      d := d.(country := script[t.used - 1]);
    }
    d := d.(pos := t.used, state := 5);
  }

  /** AddPassenger itself, reading the script line by line; the result is the INSERT it sends, if any. */
  method AddPassenger(script: seq<string>, db: Db) returns (inserted: Option<Passenger>)
    ensures inserted == Run(START, script, db).inserted
  {
    var c := START;
    while 0 <= c.state <= 6
      invariant c.pos <= |script|
      invariant Run(c, script, db) == Run(START, script, db)
      decreases |script| - c.pos, Phase(c, script)
    {
      StepProgress(c, script, db);
      ghost var after := Step(c, script, db);
      if c.state == 0 {
        c := PassportState(c, script, db);
      } else if c.state == 1 {
        c := FirstNameState(c, script);
      } else if c.state == 2 {
        c := LastNameState(c, script);
      } else if c.state == 3 {
        c := BirthDateState(c, script);
      } else if c.state == 4 {
        c := CountryState(c, script);
      } else if c.state == 5 {
        var pid := c.pid;
        if db.pidRows.Ok? {
          pid := AvailableId(db.pidRows.value);
        }
        c := c.(state := 6, pid := pid);
      } else {
        c := c.(state := -1, inserted := Some(Passenger(c.pid, c.passNum, c.fullName, c.bdate, c.country)));
      }
      assert c == after;
    }
    inserted := c.inserted;
  }

  /** The passport number is a line, upper-cased, for which the duplicate query found no row. */
  ghost predicate Unregistered(passNum: string, db: Db)
  {
    exists line :: UpperCase(line) == passNum && db.registered(line) == Ok(0)
  }

  /**
   * A row fit for the Passenger table, as far as the prompts check it, with
   * the pID the gap scan picks (0 when the pID query failed).
   */
  ghost predicate GoodRow(p: Passenger, db: Db)
  {
    |p.passNum| == PASSPORT_LENGTH && Unregistered(p.passNum, db)
    && 0 < |p.fullName| <= FIELD_CAP && NoDigits(p.fullName)
    && (p.bdate == "" || DateShape(p.bdate))
    && (p.country == "" || (|p.country| <= FIELD_CAP && NoDigits(p.country)))
    && p.pid >= 0 && p.pid == PickPid(db.pidRows, 0)
  }

  /** What holds of the variables in each state. */
  ghost predicate Inv(c: Config, db: Db)
  {
    (1 <= c.state <= 6 ==> |c.passNum| == PASSPORT_LENGTH && Unregistered(c.passNum, db))
    && (c.state == 2 ==> 0 < |c.fullName| && NoDigits(c.fullName))
    && (3 <= c.state <= 6 ==> 0 < |c.fullName| <= FIELD_CAP && NoDigits(c.fullName))
    && (c.bdate == "" || DateShape(c.bdate))
    && (c.country == "" || (|c.country| <= FIELD_CAP && NoDigits(c.country)))
    && c.pid >= 0
    && (0 <= c.state <= 5 ==> c.pid == 0)
    && (c.state == 6 ==> c.pid == PickPid(db.pidRows, 0))
    && (c.inserted.Some? ==> GoodRow(c.inserted.value, db))
  }

  lemma NoDigitsConcat(a: string, b: string)
    requires NoDigits(a) && NoDigits(b)
    ensures NoDigits(a + b)
  {
    forall i | 0 <= i < |a + b| ensures !IsDigit((a + b)[i]) {
      if i >= |a| {
        assert (a + b)[i] == b[i - |a|];
      }
    }
  }

  lemma PassportKeepsInv(c: Config, script: seq<string>, db: Db)
    requires c.pos <= |script| && Inv(c, db) && c.state == 0
    ensures Inv(AskPassport(c, script, db), db)
  {
    var t := Attempts(script, PassportCheck(db), c.pos, 3);
    if t.counter > 0 {
      var line := script[t.used - 1];
      assert NewPassportVerdict(db.registered, line).Accept?;
      assert UpperCase(line) == AskPassport(c, script, db).passNum;
    }
  }

  lemma FirstNameKeepsInv(c: Config, script: seq<string>, db: Db)
    requires c.pos <= |script| && Inv(c, db) && c.state == 1
    ensures Inv(AskFirstName(c, script), db)
  {
    var t := Attempts(script, NameVerdict, c.pos, 3);
    if t.counter > 0 {
      var line := script[t.used - 1];
      CapitalizeKeepsDigits(line);
      NoDigitsConcat(Capitalize(line), " ");
    }
  }

  lemma LastNameKeepsInv(c: Config, script: seq<string>, db: Db)
    requires c.pos <= |script| && Inv(c, db) && c.state == 2
    ensures Inv(AskLastName(c, script), db)
  {
    var t := Attempts(script, NameVerdict, c.pos, 3);
    var d := AskLastName(c, script);
    assert d == c.(state := d.state, pos := d.pos, fullName := d.fullName);
    assert d.state == 1 || d.state == 3 || d.state == -1;
    if t.counter > 0 {
      var line := script[t.used - 1];
      CapitalizeKeepsDigits(line);
      NoDigitsConcat(c.fullName, Capitalize(line));
    }
  }

  lemma {:induction false} StepKeepsInv(c: Config, script: seq<string>, db: Db)
    requires c.pos <= |script| && Inv(c, db)
    ensures Inv(Step(c, script, db), db)
  {
    if c.state == 0 {
      PassportKeepsInv(c, script, db);
    } else if c.state == 1 {
      FirstNameKeepsInv(c, script, db);
    } else if c.state == 2 {
      LastNameKeepsInv(c, script, db);
    } else if c.state == 3 {
      var t := Attempts(script, DateVerdict, c.pos, 3);
    } else if c.state == 4 {
      var t := Attempts(script, CountryVerdict, c.pos, 3);
    } else if c.state == 5 {
      if db.pidRows.Ok? {
        ScanRowsBounds(0, db.pidRows.value);
      }
    }
  }

  lemma {:induction false} RunKeepsInv(c: Config, script: seq<string>, db: Db)
    requires c.pos <= |script| && Inv(c, db)
    ensures Inv(Run(c, script, db), db)
    decreases |script| - c.pos, Phase(c, script)
  {
    if 0 <= c.state <= 6 {
      StepProgress(c, script, db);
      StepKeepsInv(c, script, db);
      RunKeepsInv(Step(c, script, db), script, db);
    }
  }

  /**
   * Whatever the input and the database, a passenger AddPassenger inserts
   * has a ten-character passport number, a full name of at most 24
   * characters without digits, a date that is empty or of the YYYY-MM-DD
   * shape, a country that is empty or passes the country check, and a
   * non-negative pID. The number is one the duplicate query found no row
   * for, and the pID is the one the gap scan picked over the pID rows.
   */
  lemma InsertedRowIsChecked(script: seq<string>, db: Db)
    ensures Run(START, script, db).inserted.Some? ==> GoodRow(Run(START, script, db).inserted.value, db)
  {
    RunKeepsInv(START, script, db);
  }

  /**
   * The date of birth and country steps move on even when every try failed,
   * so once the full name is accepted the passenger is always inserted,
   * with the pID the scan picked and whatever the two prompts kept.
   */
  lemma AcceptedNameAlwaysInserts(c: Config, script: seq<string>, db: Db)
    requires c.pos <= |script| && c.state == 3
    ensures var c4 := AskBirthDate(c, script);
            var c5 := AskCountry(c4, script);
            Run(c, script, db).inserted
              == Some(Passenger(PickPid(db.pidRows, c.pid), c.passNum, c.fullName, c4.bdate, c5.country))
  {
    var c4 := AskBirthDate(c, script);
    var c5 := AskCountry(c4, script);
    var c6 := c5.(state := 6, pid := PickPid(db.pidRows, c.pid));
    var c7 := c6.(state := -1, inserted := Some(Passenger(c6.pid, c6.passNum, c6.fullName, c6.bdate, c6.country)));
    assert Step(c, script, db) == c4;
    assert Step(c4, script, db) == c5;
    assert Step(c5, script, db) == c6;
    assert Step(c6, script, db) == c7;
    assert Run(c6, script, db) == c7;
    assert Run(c5, script, db) == Run(c6, script, db);
    assert Run(c4, script, db) == Run(c5, script, db);
    assert Run(c, script, db) == Run(c4, script, db);
  }

  /** An empty date of birth gives up the date prompt, and the passenger is inserted with an empty date. */
  lemma EmptyBirthDateIsStored(c: Config, script: seq<string>, db: Db)
    requires c.pos < |script| && c.state == 3 && c.bdate == "" && script[c.pos] == ""
    ensures Run(c, script, db).inserted.Some?
    ensures Run(c, script, db).inserted.value.bdate == ""
  {
    assert AskBirthDate(c, script).bdate == "";
    AcceptedNameAlwaysInserts(c, script, db);
  }

  /** An empty first answer cancels the whole operation: nothing is inserted. */
  lemma EmptyPassportCancels(script: seq<string>, db: Db)
    requires |script| > 0 && script[0] == ""
    ensures Run(START, script, db).state == -1
    ensures Run(START, script, db).inserted == None
  {
    var c1 := Step(START, script, db);
    assert c1.state == -1;
    assert Run(START, script, db) == Run(c1, script, db);
  }

  /**
   * The full-name check runs whatever the last-name prompt did: a first
   * name that already makes the name longer than 24 sends the machine back
   * to state 1 with the name cleared, even when the last name was given up.
   */
  lemma LongFirstNameRestarts(c: Config, script: seq<string>, db: Db)
    requires c.pos <= |script| && c.state == 2 && |c.fullName| > FIELD_CAP
    ensures Step(c, script, db).state == 1
    ensures Step(c, script, db).fullName == ""
  {
    assert Step(c, script, db) == AskLastName(c, script);
    var t := Attempts(script, NameVerdict, c.pos, 3);
    if t.counter > 0 {
      assert |c.fullName + Capitalize(script[t.used - 1])| > FIELD_CAP;
    }
  }

  /**
   * When the name prompts both succeed without restarting, the stored name
   * is the accepted first name and last name, capitalized, with one space
   * between them.
   */
  lemma FullNameIsBothNames(c: Config, script: seq<string>, db: Db)
    requires c.pos <= |script| && c.state == 1
    requires Step(c, script, db).state == 2
    requires Step(Step(c, script, db), script, db).state == 3
    ensures var d := Step(c, script, db);
            var e := Step(d, script, db);
            c.pos < d.pos < e.pos
            && NameVerdict(script[d.pos - 1]).Accept? && NameVerdict(script[e.pos - 1]).Accept?
            && e.fullName == Capitalize(script[d.pos - 1]) + " " + Capitalize(script[e.pos - 1])
  {
    var d := Step(c, script, db);
    assert d == AskFirstName(c, script);
    assert Step(d, script, db) == AskLastName(d, script);
    var t := Attempts(script, NameVerdict, d.pos, 3);
    assert t.counter > 0;
  }
}
