/**
 * BookFlight of the console front end: a `while (true)` over an int state.
 * State 0 asks for a registered passport number, 1 for an origin, 2 for a
 * destination served from it, 3 for the departure date, 4 draws a fresh
 * booking reference and 5 sends the INSERT into Booking.
 */
module BookFlightCli {
  import opened Wrappers
  import opened Text
  import opened Datastore
  import opened Prompts
  import opened Validation
  import opened BookingRef

  /**
   * The database as BookFlight sees it: the pIDs of the passengers with a
   * passport number, the row count for an origin, the flight numbers from
   * an origin to a destination, and the row count for a booking reference.
   */
  datatype Db = Db(passengers: string -> Reply<seq<string>>,
                   origins: string -> Reply<nat>,
                   flights: string -> string -> Reply<seq<string>>,
                   booked: string -> Reply<nat>)

  /** The method's local variables, plus how much of the script has been read and the INSERT sent. */
  datatype Config = Config(state: int, pos: nat, passNum: string, pid: string, origin: string,
                           destination: string, flightNum: string, departure: string,
                           bookref: string, inserted: Option<Booking>)

  const START: Config := Config(0, 0, "", "", "", "", "", "", "", None)

  function PassportCheck(db: Db): string -> Verdict
  {
    (line: string) => KnownPassportVerdict(db.passengers, line)
  }

  function OriginCheck(db: Db): string -> Verdict
  {
    (line: string) => OriginVerdict(db.origins, line)
  }

  function DestinationCheck(db: Db, origin: string): string -> Verdict
  {
    (line: string) => DestinationVerdict(db.flights(origin), line)
  }

  /** State 0: the passport must be registered; its first row gives the pID. */
  function AskPassport(c: Config, script: seq<string>, db: Db): (d: Config)
    requires c.pos <= |script|
    ensures c.pos <= d.pos <= |script|
  {
    var t := Attempts(script, PassportCheck(db), c.pos, 3);
    var passNum := if t.used > c.pos then UpperCase(script[t.used - 1]) else c.passNum;
    if t.counter > 0 then
      c.(state := 1, pos := t.used, passNum := passNum, pid := db.passengers(passNum).value[0])
    else c.(state := -1, pos := t.used, passNum := passNum)
  }

  /** State 1: origin holds the last line read; a failed query asks again without costing a try. */
  function AskOrigin(c: Config, script: seq<string>, db: Db): (d: Config)
    requires c.pos <= |script|
    ensures c.pos <= d.pos <= |script|
  {
    var t := Attempts(script, OriginCheck(db), c.pos, 3);
    c.(state := if t.counter > 0 then 2 else -1, pos := t.used,
       origin := if t.used > c.pos then script[t.used - 1] else c.origin)
  }

  /**
   * State 2: destination. The flight number is the first one the query
   * returns. The state is set to 3 after the usual counter test, so the
   * machine goes on to the departure date even when every try failed.
   */
  function AskDestination(c: Config, script: seq<string>, db: Db): (d: Config)
    requires c.pos <= |script|
    ensures c.pos <= d.pos <= |script|
  {
    var t := Attempts(script, DestinationCheck(db, c.origin), c.pos, 3);
    var destination := if t.used > c.pos then script[t.used - 1] else c.destination;
    var flightNum := if t.counter > 0 then db.flights(c.origin)(destination).value[0] else c.flightNum;
    c.(state := 3, pos := t.used, destination := destination, flightNum := flightNum)
  }

  /** State 3: departure date, kept only when accepted. */
  function AskDeparture(c: Config, script: seq<string>): (d: Config)
    requires c.pos <= |script|
    ensures c.pos <= d.pos <= |script|
  {
    var t := Attempts(script, DateVerdict, c.pos, 3);
    if t.counter > 0 then c.(state := 4, pos := t.used, departure := script[t.used - 1])
    else c.(state := -1, pos := t.used)
  }

  /**
   * State 4: the retry loop for a booking reference. When the oracle runs
   * out (the program would keep drawing) the model stops in state -2.
   */
  function DrawBookRef(c: Config, draws: seq<Draw>, db: Db): Config
  {
    var s := CliSearch(draws, db.booked, 0, "");
    c.(state := if s.state == 4 then -2 else s.state, bookref := s.bookref)
  }

  function Step(c: Config, script: seq<string>, draws: seq<Draw>, db: Db): (d: Config)
    requires c.pos <= |script|
    ensures c.pos <= d.pos <= |script|
  {
    if c.state == 0 then AskPassport(c, script, db)
    else if c.state == 1 then AskOrigin(c, script, db)
    else if c.state == 2 then AskDestination(c, script, db)
    else if c.state == 3 then AskDeparture(c, script)
    else if c.state == 4 then DrawBookRef(c, draws, db)
    else if c.state == 5 then
      c.(state := -1, inserted := Some(Booking(c.bookref, c.departure, c.flightNum, c.pid)))
    else c
  }

  /** Every pass moves to a later state or leaves. */
  function Phase(c: Config): nat
  {
    if 0 <= c.state <= 5 then 6 - c.state else 0
  }

  lemma StepAdvances(c: Config, script: seq<string>, draws: seq<Draw>, db: Db)
    requires c.pos <= |script| && 0 <= c.state <= 5
    ensures Phase(Step(c, script, draws, db)) < Phase(c)
  {
    if c.state == 4 {
      CliSearchOutcome(draws, db.booked, 0, "");
      CliSearchReplies(draws, db.booked, 0, "");
    }
  }

  function Run(c: Config, script: seq<string>, draws: seq<Draw>, db: Db): (d: Config)
    requires c.pos <= |script|
    ensures d.state < 0 || d.state > 5
    decreases Phase(c)
  {
    if c.state < 0 || c.state > 5 then c
    else
      StepAdvances(c, script, draws, db);
      Run(Step(c, script, draws, db), script, draws, db)
  }

  /** The branch for state 0. */
  method PassportState(c: Config, script: seq<string>, db: Db) returns (d: Config)
    requires c.pos <= |script|
    ensures d == AskPassport(c, script, db)
  {
    var t := PromptLoop(script, PassportCheck(db), c.pos);
    var passNum := c.passNum;
    if t.used > c.pos {
      passNum := UpperCase(script[t.used - 1]);
    }
    if t.counter > 0 {
      var rows := db.passengers(passNum).value;
      d := c.(state := 1, pos := t.used, passNum := passNum, pid := rows[0]);
    } else {
      d := c.(state := -1, pos := t.used, passNum := passNum);
    }
  }

  /** The branch for state 1. */
  method OriginState(c: Config, script: seq<string>, db: Db) returns (d: Config)
    requires c.pos <= |script|
    ensures d == AskOrigin(c, script, db)
  {
    var t := PromptLoop(script, OriginCheck(db), c.pos);
    d := c;
    if t.used > c.pos {
      d := d.(origin := script[t.used - 1]);
    }
    d := d.(pos := t.used, state := if t.counter > 0 then 2 else -1);
  }

  /** The branch for state 2, with the state forced to 3 at its end. */
  method DestinationState(c: Config, script: seq<string>, db: Db) returns (d: Config)
    requires c.pos <= |script|
    ensures d == AskDestination(c, script, db)
  {
    var t := PromptLoop(script, DestinationCheck(db, c.origin), c.pos);
    d := c;
    if t.used > c.pos {
      d := d.(destination := script[t.used - 1]);
    }
    if t.counter > 0 {
      d := d.(flightNum := db.flights(c.origin)(d.destination).value[0]);
    }
    d := d.(pos := t.used, state := if t.counter > 0 then 3 else -1);
    d := d.(state := 3);
  }

  /** The branch for state 3. */
  method DepartureState(c: Config, script: seq<string>) returns (d: Config)
    requires c.pos <= |script|
    ensures d == AskDeparture(c, script)
  {
    var t := PromptLoop(script, DateVerdict, c.pos);
    if t.counter > 0 {
      d := c.(state := 4, pos := t.used, departure := script[t.used - 1]);
    } else {
      d := c.(state := -1, pos := t.used);
    }
  }

  /** BookFlight itself; the result is the INSERT it sends, if any. */
  method BookFlight(script: seq<string>, draws: seq<Draw>, db: Db) returns (inserted: Option<Booking>)
    ensures inserted == Run(START, script, draws, db).inserted
  {
    var c := START;
    while 0 <= c.state <= 5
      invariant c.pos <= |script|
      invariant Run(c, script, draws, db) == Run(START, script, draws, db)
      decreases Phase(c)
    {
      StepAdvances(c, script, draws, db);
      ghost var after := Step(c, script, draws, db);
      if c.state == 0 {
        c := PassportState(c, script, db);
      } else if c.state == 1 {
        c := OriginState(c, script, db);
      } else if c.state == 2 {
        c := DestinationState(c, script, db);
      } else if c.state == 3 {
        c := DepartureState(c, script);
      } else if c.state == 4 {
        var state, bookref := CliBookRef(draws, db.booked);
        c := c.(state := if state == 4 then -2 else state, bookref := bookref);
      } else {
        c := c.(state := -1, inserted := Some(Booking(c.bookref, c.departure, c.flightNum, c.pid)));
      }
      assert c == after;
    }
    inserted := c.inserted;
  }

  /** A booking row as far as BookFlight checks it. */
  predicate GoodBooking(b: Booking, passNum: string, db: Db)
  {
    |b.bookref| == 10 && IsRefText(b.bookref) && db.booked(b.bookref) == Ok(0)
    && DateShape(b.departure)
    && |passNum| == PASSPORT_LENGTH
    && db.passengers(passNum).Ok? && |db.passengers(passNum).value| > 0
    && b.pid == db.passengers(passNum).value[0]
  }

  predicate Inv(c: Config, db: Db)
  {
    (1 <= c.state <= 5 ==>
       |c.passNum| == PASSPORT_LENGTH
       && db.passengers(c.passNum).Ok? && |db.passengers(c.passNum).value| > 0
       && c.pid == db.passengers(c.passNum).value[0])
    && (4 <= c.state <= 5 ==> DateShape(c.departure))
    && (c.state == 5 ==> |c.bookref| == 10 && IsRefText(c.bookref) && db.booked(c.bookref) == Ok(0))
    && (0 <= c.state <= 5 ==> c.inserted == None)
    && (c.inserted.Some? ==> GoodBooking(c.inserted.value, c.passNum, db))
  }

  lemma PassportKeepsInv(c: Config, script: seq<string>, db: Db)
    requires c.pos <= |script| && Inv(c, db) && c.state == 0
    ensures Inv(AskPassport(c, script, db), db)
  {
    var t := Attempts(script, PassportCheck(db), c.pos, 3);
    if t.counter > 0 {
      assert KnownPassportVerdict(db.passengers, script[t.used - 1]).Accept?;
    }
  }

  lemma {:induction false} StepKeepsInv(c: Config, script: seq<string>, draws: seq<Draw>, db: Db)
    requires c.pos <= |script| && Inv(c, db)
    ensures Inv(Step(c, script, draws, db), db)
  {
    if c.state == 0 {
      PassportKeepsInv(c, script, db);
    } else if c.state == 3 {
      var t := Attempts(script, DateVerdict, c.pos, 3);
    } else if c.state == 4 {
      CliAcceptedRefIsFresh(draws, db.booked);
    }
  }

  lemma {:induction false} RunKeepsInv(c: Config, script: seq<string>, draws: seq<Draw>, db: Db)
    requires c.pos <= |script| && Inv(c, db)
    ensures Inv(Run(c, script, draws, db), db)
    decreases Phase(c)
  {
    if 0 <= c.state <= 5 {
      StepAdvances(c, script, draws, db);
      StepKeepsInv(c, script, draws, db);
      RunKeepsInv(Step(c, script, draws, db), script, draws, db);
    }
  }

  /**
   * A booking BookFlight inserts carries a ten-letter reference no booking
   * held, a departure of the YYYY-MM-DD shape, and the pID of the passenger
   * the passport number belongs to.
   */
  lemma InsertedBookingIsChecked(script: seq<string>, draws: seq<Draw>, db: Db)
    ensures var d := Run(START, script, draws, db);
            d.inserted.Some? ==> GoodBooking(d.inserted.value, d.passNum, db)
  {
    RunKeepsInv(START, script, draws, db);
  }

  /**
   * The forced state 3: an empty destination line gives up that prompt,
   * yet the machine asks for the departure date with the flight number
   * still empty.
   */
  lemma GivenUpDestinationGoesOn(c: Config, script: seq<string>, draws: seq<Draw>, db: Db)
    requires c.pos < |script| && c.state == 2 && c.flightNum == "" && script[c.pos] == ""
    ensures Step(c, script, draws, db).state == 3
    ensures Step(c, script, draws, db).flightNum == ""
  {
    assert Step(c, script, draws, db) == AskDestination(c, script, db);
  }

  /**
   * Carried on to the end: with a departure accepted and a free reference
   * drawn, a booking with an empty flight number is inserted.
   */
  lemma BookingWithoutFlight(c: Config, script: seq<string>, draws: seq<Draw>, db: Db)
    requires c.pos + 1 < |script| && c.state == 2 && c.flightNum == ""
    requires script[c.pos] == "" && DateShape(script[c.pos + 1])
    requires CliSearch(draws, db.booked, 0, "").state == 5
    ensures Run(c, script, draws, db).inserted.Some?
    ensures Run(c, script, draws, db).inserted.value.flightNum == ""
  {
    var c3 := Step(c, script, draws, db);
    GivenUpDestinationGoesOn(c, script, draws, db);
    assert c3.pos == c.pos + 1;
    var c4 := Step(c3, script, draws, db);
    assert c4 == AskDeparture(c3, script);
    assert DateVerdict(script[c3.pos]).Accept?;
    assert c4.state == 4;
    var c5 := Step(c4, script, draws, db);
    assert c5.state == 5;
    var c6 := Step(c5, script, draws, db);
    assert Run(c5, script, draws, db) == c6;
    assert Run(c4, script, draws, db) == Run(c5, script, draws, db);
    assert Run(c3, script, draws, db) == Run(c4, script, draws, db);
  }

  /**
   * The destination step with the counter test left in charge: the machine
   * only reaches the departure date with a flight number the query returned
   * for the chosen origin and destination.
   */
  function AskDestinationChecked(c: Config, script: seq<string>, db: Db): (d: Config)
    requires c.pos <= |script|
    ensures d.state == 3 ==> db.flights(c.origin)(d.destination).Ok?
                             && |db.flights(c.origin)(d.destination).value| > 0
                             && d.flightNum == db.flights(c.origin)(d.destination).value[0]
    ensures d.state == 3 || d.state == -1
  {
    var t := Attempts(script, DestinationCheck(db, c.origin), c.pos, 3);
    var destination := if t.used > c.pos then script[t.used - 1] else c.destination;
    if t.counter > 0 then
      c.(state := 3, pos := t.used, destination := destination,
         flightNum := db.flights(c.origin)(destination).value[0])
    else c.(state := -1, pos := t.used, destination := destination)
  }
}
