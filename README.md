# Airline booking system: the decision logic of the two front ends

The system is a PostgreSQL-backed airline booking application with two front
ends: a console program (`AirBooking`) and a Swing window (`AirBooking_GUI`).
Almost everything it computes is done by SQL. This project models the small
pieces of logic that the Java code runs itself, between the queries:

- the gap-scan key allocator that picks a new pID, rID or airId (`KeyAllocator`);
- the booking-reference generator in its two variants: the console one starts
  every candidate afresh, the window one appends to the previous candidate
  (`BookingRef`);
- the field validators: passport length and duplicate check, names without
  digits, capitalized names, the 24-character caps, the `YYYY-MM-DD`
  character scan, the founded year, the review score and the top-k count
  (`Validation`, `Text`);
- the console's three-attempt prompt loops (`Prompts`) and the two full
  state machines, Add Passenger (`AddPassengerCli`) and Book Flight
  (`BookFlightCli`);
- the window's calendar rules and combo-box items (`Calendar`), its capped
  text fields, its date listeners, its two submit handlers for Add Passenger
  and Book Flight, and its queue of pending `DROP INDEX` statements (`Gui`).

Every query is replaced by its reply (`Datastore.Reply`): a value for a fixed
query, or a function from the text the query is built from for a query that
depends on user input. `java.util.Random` is an oracle: a finite sequence of
letter indices 0..25. The console's input is a sequence of lines. When that
sequence runs out, the model behaves as if `readLine` had thrown: the
prompt's counter drops to 0. Character classes and case mapping are ASCII.
`Integer.parseInt` is modelled exactly: an optional sign, digits, and
the 32-bit range.

The prompt loops and state machines are written twice. A recursive function
(`Attempts`, `Run`) defines the behaviour. A method with `while` loops, like
the Java code, is proved to compute the same thing. The properties are then
lemmas about the function. The window is a class, `Gui.Frame`, whose fields
are the ones the handlers assign. Its handlers are methods with `modifies`
clauses. They keep the invariant `Valid()`: the date boxes always show a
real calendar date. The submit handlers are each proved equal to a function
of the form's state (`AddPassengerSubmit`, `BookFlightSubmit`), and the
facts about the inserted row are lemmas about those functions.

Where the written design and the code disagree, the model follows the code:

- The key allocator is described as returning the smallest free key. The code
  returns that only on an ascending key list. Several of its queries have no
  `ORDER BY` (see Findings).
- The Add Passenger screen of the window does not check names for digits.
  It also does not count the separating space in its length limit.
- In the console, the date of birth and country steps move on even when all
  three attempts are used up. In that case the passenger is stored with an
  empty date or country.
- Book Flight in the console moves to the departure step even when no
  destination was accepted.

## Model

| member | source | states |
|---|---|---|
| KeyAllocator.AvailableId | code/java/src/AirBooking.java:568-579 | the nested for-loop scan, in which a mismatch leaves only the inner loop, returns ScanRows(0, rows), a value between 0 and the number of cells |
| KeyAllocator.ScanRowsBounds | code/java/src/AirBooking.java:570-578 | the scan moves forward by at most one per cell it reads |
| KeyAllocator.ScanColumnBelowIsTaken | code/java/src/AirBooking_GUI.java:854-864 | whatever the row order, every value from the start up to the result occurs among the ids |
| KeyAllocator.ScanColumnSkipsLarger | code/java/src/AirBooking.java:1470-1478 | when every id is above the start (in particular no ids at all), the start is returned |
| KeyAllocator.AscendingScanIsSmallestFree | code/java/src/AirBooking.java:1211-1219 | on ascending non-negative ids (ORDER BY rID) the result is not taken and every smaller key is taken |
| KeyAllocator.ContiguousIdsGiveCount | code/java/src/AirBooking.java:1470-1478 | the ids 0..n-1 give n |
| KeyAllocator.UnorderedScanCollides | code/java/src/AirBooking.java:568-579 | the unsorted pID rows 1, 0, 2 give 1, a key already in use |
| KeyAllocator.SmallestFreeId | code/java/src/AirBooking.java:568-579 | the smallest non-negative key not in the set of keys, whatever order they come in |
| KeyAllocator.OrderedScanMatchesSmallestFree | code/java/src/AirBooking_GUI.java:1326-1336 | on ascending ids (ORDER BY airId) the scan and the smallest free key agree |
| BookingRef.Spell | code/java/src/AirBooking.java:914-916 | each oracle draw becomes one letter A-Z, one letter per draw |
| BookingRef.CliBookRef | code/java/src/AirBooking.java:911-934 | the console retry loop, which rebuilds the candidate from "" on each try, computes CliSearch |
| BookingRef.CliSearchReplies | code/java/src/AirBooking.java:918-933 | the loop ends in state 5 with a candidate whose lookup returned 0 rows, or in state -1 with one whose lookup threw |
| BookingRef.CliSearchOutcome | code/java/src/AirBooking.java:911-934 | a loop that ends in state 5 or -1 ends on one window of 10 draws, and every earlier window's lookup found a row |
| BookingRef.CliSearchTakesFirstFree | code/java/src/AirBooking.java:918-933 | conversely, the first candidate the lookup does not report taken is the one chosen |
| BookingRef.CliAcceptedRefIsFresh | code/java/src/AirBooking.java:911-925 | an accepted reference has exactly 10 letters A-Z and its lookup returned 0 rows |
| BookingRef.GuiBookRef | code/java/src/AirBooking_GUI.java:986-1007 | the window's retry loop, which appends 10 more letters to the previous candidate, computes GuiSearch |
| BookingRef.GuiChosenIsFree | code/java/src/AirBooking_GUI.java:995-1001 | the window's loop stops only on a candidate the lookup does not report taken |
| BookingRef.GuiSearchGrows | code/java/src/AirBooking_GUI.java:986-1007 | from round k, the chosen candidate is the first 10(n+1) letters drawn, and every shorter candidate tried was taken |
| BookingRef.GuiRefLengthCountsCollisions | code/java/src/AirBooking_GUI.java:986-1007 | a chosen window reference is a whole number of 10-letter blocks, one more than the collisions, and every earlier candidate was taken |
| BookingRef.GuiRefAfterOneCollision | code/java/src/AirBooking_GUI.java:986-1007 | after one collision the window chooses the first 20 letters drawn, a 20-letter reference |
| BookingRef.GuiSearchReset | code/java/src/AirBooking_GUI.java:986-1007 | with the candidate reset on each try, a chosen reference has 10 letters A-Z and is free |
| Text.Capitalize | code/java/src/AirBooking.java:410 | the stored name starts with a non-lower-case letter, has no upper case after it, and equals the input ignoring case |
| Text.CapitalizeIdempotent | code/java/src/AirBooking_GUI.java:870-872 | capitalizing a stored name again changes nothing |
| Text.CapitalizeKeepsDigits | code/java/src/AirBooking.java:453 | capitalizing neither adds nor removes digits |
| Text.ParseInt | code/java/src/AirBooking.java:1338 | Integer.parseInt: a result fits in 32 bits and begins with a digit or sign; a digit string within range reads as its decimal value |
| Text.ParseIntReadsIntText | code/java/src/AirBooking.java:1338 | Integer.parseInt succeeds iff the text is an optional sign followed by one or more digits whose signed value fits in 32 bits, and then returns that signed value |
| Text.ParseIntSamples | code/java/src/AirBooking.java:1169 | "1x", "-" and "+" are refused; "-5" reads as -5 and "+7" as 7 |
| Text.NatToString | code/java/src/AirBooking_GUI.java:551 | "" + i writes at least one digit and nothing else |
| Text.ParseNatToString | code/java/src/AirBooking_GUI.java:551 | Integer.parseInt reads back the year label "" + i |
| Text.DigitsValueBound | code/java/src/AirBooking.java:1333-1338 | k digits stand for less than 10^k, so four digits stay below 10000 |
| Prompts.Attempts | code/java/src/AirBooking.java:378-418 | the three-attempt loop reads only forward and ends on an accepted line iff the counter stays positive; every line before the last was charged; an accepted end leaves the counter lowered by exactly the number of refused lines; a refused last line means the tries or the input ran out |
| Prompts.PromptLoop | code/java/src/AirBooking.java:378-418 | the while (counter > 0) loop computes Attempts with counter 3 |
| Prompts.AtMostCounterReads | code/java/src/AirBooking.java:1154-1177 | without query exceptions a prompt reads at most three lines |
| Prompts.ThreeRefusalsGiveUp | code/java/src/AirBooking.java:1282-1286 | three refused lines use the three attempts: counter 0 after three lines |
| Prompts.RetryThenAccept | code/java/src/AirBooking.java:334-375 | a refused line costs exactly one try: refused then accepted ends after two lines with counter - 1 |
| Prompts.FirstAcceptWins | code/java/src/AirBooking.java:736-756 | query exceptions cost no attempt, and the first accepted line ends the prompt with the counter unchanged |
| Prompts.ReadK | code/java/src/AirBooking.java:1713-1737 | the top-k loop: an empty line or 0 returns from the operation; a positive count is kept with the counter unchanged; a negative or unparsable count costs a try; when the tries run out the counter is 0 |
| Prompts.RefusedCountCostsOneTry | code/java/src/AirBooking.java:1716-1737 | a negative or unparsable count followed by a positive one keeps the positive one with one try fewer |
| Prompts.ReadTopK | code/java/src/AirBooking.java:1711-1737 | the top-k while loop computes ReadK from counter 3 and k_most 0 |
| Prompts.GuardedListing | code/java/src/AirBooking.java:1709-1741 | listings 6 and 7 go on only with a positive count: an empty first line or 0 leaves, a positive first line is the count used |
| Prompts.UnguardedListingKeepsNegative | code/java/src/AirBooking.java:1830-1858 | listing 8 has no counter == 0 guard: after three negative counts it goes on with k = -3, where listings 6 and 7 leave |
| Prompts.UnguardedListingKeepsZero | code/java/src/AirBooking.java:1830-1858 | three unparsable counts run listing 8 with k = 0 |
| Prompts.GuardedRefinesUnguarded | code/java/src/AirBooking.java:1830-1858 | listing 8 and listings 6/7 agree whenever the count is positive |
| Validation.ScanNoDigit | code/java/src/AirBooking.java:397-403 | the backward character scan clears valid exactly when the name holds a digit |
| Validation.ScanDateChars | code/java/src/AirBooking.java:495-501 | the backward scan clears valid exactly when some character is neither a digit nor '-' |
| Validation.ScanCountry | code/java/src/AirBooking.java:540-545 | the country scan, with its redundant space test, clears valid exactly when the text holds a digit |
| Validation.NewPassportVerdict | code/java/src/AirBooking.java:334-366 | Add Passenger accepts a passport iff it has 10 characters and the query on the raw input finds no row; empty input or a query exception cancels |
| Validation.NewPassportVerdictUpper | code/java/src/AirBooking.java:343-347 | with the query on the upper-cased number, acceptance means that number is not registered |
| Validation.LowerCaseDuplicatePasses | code/java/src/AirBooking.java:343-347 | a registered AB12345678 typed as ab12345678 is accepted by the code as written and refused by the corrected check |
| Validation.KnownPassportVerdict | code/java/src/AirBooking.java:646-679 | Book Flight accepts a passport iff it has 10 characters and the passenger query finds a row; another non-empty length costs an attempt; empty input, no row or a query exception gives up |
| Validation.NameVerdict | code/java/src/AirBooking.java:384-411 | a name is accepted iff it is non-empty and has no digit; empty input cancels |
| Validation.DateVerdict | code/java/src/AirBooking.java:477-508 | a date is accepted iff it has 10 characters, each a digit or '-'; empty input cancels |
| Validation.CountryVerdict | code/java/src/AirBooking.java:527-552 | a country is accepted iff it has 1 to 24 characters and no digit |
| Validation.CappedVerdict | code/java/src/AirBooking.java:1278-1286 | airline name, country and hub are accepted iff they have 1 to 24 characters; longer costs an attempt |
| Validation.FoundedVerdict | code/java/src/AirBooking.java:1328-1350 | the founded year is accepted iff it has 1 to 4 characters and Integer.parseInt reads it as at least 1900; empty input cancels; every other line, unparsable ones included, costs an attempt |
| Validation.FoundedYearInRange | code/java/src/AirBooking.java:1333-1346 | an accepted year parses to a value from 1900 to 9999 |
| Validation.FoundedBoundary | code/java/src/AirBooking.java:1333-1346 | 1900 is accepted; 1899, 01900 and 19a0 each cost an attempt |
| Validation.ScoreVerdict | code/java/src/AirBooking.java:1164-1176 | a score is accepted iff it parses to 0..5; a parsable score outside 0..5 costs an attempt; unparsable non-empty input throws out of the prompt; empty input cancels |
| Validation.UnparsableScoreCrashes | code/java/src/AirBooking.java:1169 | "abc" escapes as an exception, "6" costs an attempt, "5" is accepted |
| Validation.OriginVerdict | code/java/src/AirBooking.java:736-756 | an origin is accepted iff the query finds it; no row costs an attempt; a query exception asks again without costing an attempt; empty input cancels |
| Validation.DestinationVerdict | code/java/src/AirBooking.java:805-836 | a destination is accepted iff a flight from the origin reaches it; no flight costs an attempt; an exception asks again; empty input cancels |
| AddPassengerCli.PassportState | code/java/src/AirBooking.java:312-375 | state 0 (passport) computes AskPassport: 1 if attempts remain, else -1 |
| AddPassengerCli.FirstNameState | code/java/src/AirBooking.java:378-418 | state 1 computes AskFirstName |
| AddPassengerCli.LastNameState | code/java/src/AirBooking.java:421-467 | state 2 computes AskLastName, including the restart at state 1 for a full name over 24 |
| AddPassengerCli.BirthDateState | code/java/src/AirBooking.java:470-511 | state 3 computes AskBirthDate, which always moves to state 4 |
| AddPassengerCli.CountryState | code/java/src/AirBooking.java:514-555 | state 4 computes AskCountry, which always moves to state 5 |
| AddPassengerCli.Run | code/java/src/AirBooking.java:310-611 | the do-while loop over the states always ends, in state -1 or past 6 |
| AddPassengerCli.AddPassenger | code/java/src/AirBooking.java:301-611 | the console method computes Run from state 0: the row it inserts, if any |
| AddPassengerCli.RunKeepsInv | code/java/src/AirBooking.java:310-611 | every run keeps the invariant that the stored fields are ones the checks accepted, and nothing is inserted before state 6 |
| AddPassengerCli.InsertedRowIsChecked | code/java/src/AirBooking.java:593-606 | an inserted row has a 10-character passport whose duplicate query (on the line as typed) returned 0 rows, a name of 1 to 24 characters without digits, the pID the scan of the pID rows gave (0 if that query failed), a date that is empty or YYYY-MM-DD, and a country of at most 24 characters without digits |
| AddPassengerCli.AcceptedNameAlwaysInserts | code/java/src/AirBooking.java:470-606 | once both names are accepted, a row is always inserted, with the scanned pID, whatever the date and country prompts do |
| AddPassengerCli.EmptyBirthDateIsStored | code/java/src/AirBooking.java:482-511 | an empty date of birth ends the prompt and the passenger is stored with an empty date |
| AddPassengerCli.EmptyPassportCancels | code/java/src/AirBooking.java:334-375 | an empty first line ends Add Passenger in state -1 with nothing inserted |
| AddPassengerCli.LongFirstNameRestarts | code/java/src/AirBooking.java:462-467 | a full name over 24 characters is cleared and prompting restarts at state 1 |
| AddPassengerCli.FullNameIsBothNames | code/java/src/AirBooking.java:410-453 | the full name is cap(first) + " " + cap(last), both accepted names |
| BookFlightCli.PassportState | code/java/src/AirBooking.java:622-692 | state 0 computes AskPassport, which takes pID from the first row found |
| BookFlightCli.OriginState | code/java/src/AirBooking.java:694-772 | state 1 computes AskOrigin |
| BookFlightCli.DestinationState | code/java/src/AirBooking.java:773-852 | state 2 computes AskDestination, which ends in state 3 in all cases |
| BookFlightCli.DepartureState | code/java/src/AirBooking.java:854-899 | state 3 computes AskDeparture |
| BookFlightCli.Run | code/java/src/AirBooking.java:624-960 | the state loop always ends, in state -1 or past 5 |
| BookFlightCli.BookFlight | code/java/src/AirBooking.java:614-960 | the console method computes Run from state 0: the booking it inserts, if any |
| BookFlightCli.RunKeepsInv | code/java/src/AirBooking.java:624-960 | every run keeps the invariant that the stored passport, pID, date and reference are ones the checks accepted |
| BookFlightCli.InsertedBookingIsChecked | code/java/src/AirBooking.java:943-955 | an inserted booking has the pID the passenger query returned for a known 10-character passport, a YYYY-MM-DD departure and a 10-letter reference whose lookup returned 0 rows |
| BookFlightCli.GivenUpDestinationGoesOn | code/java/src/AirBooking.java:838-851 | an empty destination still moves on to state 3, with no flight number |
| BookFlightCli.BookingWithoutFlight | code/java/src/AirBooking.java:838-851 | a cancelled destination followed by a valid date books a seat with an empty flight number |
| BookFlightCli.AskDestinationChecked | code/java/src/AirBooking.java:838-851 | ending in state -1 when attempts run out, state 3 always carries a flight the query returned |
| Calendar.FebruaryDays | code/java/src/AirBooking_GUI.java:617-625 | February has 29 days exactly in a leap year (y%400==0, or y%4==0 and y%100!=0), else 28 |
| Calendar.DaysInMonth | code/java/src/AirBooking_GUI.java:654-670 | 31 days exactly for months 1, 3, 5, 7, 8, 10, 12; February by the leap rule; 30 otherwise |
| Calendar.YearLength | code/java/src/AirBooking_GUI.java:654-670 | the twelve month lengths add up to 366 in a leap year and 365 otherwise |
| Calendar.PadFacts | code/java/src/AirBooking_GUI.java:564-570 | a label is two digits and parses back to its number |
| Calendar.Labels | code/java/src/AirBooking_GUI.java:671-677 | the day list has exactly max items |
| Calendar.LabelsFacts | code/java/src/AirBooking_GUI.java:671-677 | item i is the two-digit label of i+1, so the list is "01".."max" and starts with "01" |
| Calendar.LabelsDistinct | code/java/src/AirBooking_GUI.java:555-561 | no label occurs twice |
| Calendar.FillLabels | code/java/src/AirBooking_GUI.java:671-677 | the addItem loop builds exactly Labels(max) |
| Calendar.YearItems | code/java/src/AirBooking_GUI.java:550-552 | the year box has 118 items |
| Calendar.YearItemsFacts | code/java/src/AirBooking_GUI.java:550-552 | item i is "" + (1900 + i): four digits that parse to a year from 1900 to 2017 |
| Gui.OverflowKeystrokeUndone | code/java/src/AirBooking_GUI.java:481-484 | one keystroke into a full field is deleted again at the caret, restoring the text at the cap |
| Gui.TrimShortens | code/java/src/AirBooking_GUI.java:493-496 | the listener never lengthens a text, leaves one within the cap alone, and removes one character from one over it |
| Gui.FormDateIsCalendarDate | code/java/src/AirBooking_GUI.java:607-699 | whenever the listeners' invariant holds, year-month-day is YYYY-MM-DD and a real date from 1900 to 2017 |
| Gui.PassingFormIsFilled | code/java/src/AirBooking_GUI.java:832-841 | a form without error has every field filled, a passport of at least 10 characters and a stored name of at most 25 |
| Gui.GuiNameCanExceedCap | code/java/src/AirBooking_GUI.java:838-841 | two 12-letter names pass the check and store a 25-character name |
| Gui.GuiAcceptsDigitsInNames | code/java/src/AirBooking_GUI.java:832-841 | names with digits pass the check and are stored with them |
| Gui.FormErrorCountingSpace | code/java/src/AirBooking_GUI.java:838-841 | with the space counted, a passing form stores a name of at most 24 characters and passes the original check too |
| Gui.DropRunRemovesPrefix | code/java/src/AirBooking_GUI.java:308-318 | the drops remove from the front only, one per success, until the list is empty |
| Gui.FailedDropIsResent | code/java/src/AirBooking_GUI.java:308-318 | a failing drop stays at the front and is sent again |
| Gui.DropSentFromList | code/java/src/AirBooking_GUI.java:308-318 | every statement sent is one of the queued drops |
| Gui.Frame.constructor | code/java/src/AirBooking_GUI.java:548-570 | the window starts with empty fields and no queued drops, showing 2017-01-01 with January's 31 days |
| Gui.Frame.CreateIndex | code/java/src/AirBooking_GUI.java:298-306 | the drop statement is queued only when the create succeeded; nothing else changes |
| Gui.Frame.DropIndex | code/java/src/AirBooking_GUI.java:308-318 | the queue becomes DropRun of the old queue, the statements sent are DropSent, and the form is untouched |
| Gui.Frame.OnTextChanged | code/java/src/AirBooking_GUI.java:478-546 | only the edited field changes, to its trimmed text, and the invariant holds |
| Gui.Frame.OnYearSelected | code/java/src/AirBooking_GUI.java:607-641 | the year is set; with February shown the days are refilled for that year and "01" selected, otherwise nothing else changes |
| Gui.Frame.OnMonthSelected | code/java/src/AirBooking_GUI.java:644-684 | the month is set, the days are refilled with its length and day becomes "01" |
| Gui.Frame.OnDaySelected | code/java/src/AirBooking_GUI.java:687-699 | only the day changes |
| Gui.Frame.ResetDate | code/java/src/AirBooking_GUI.java:889-895 | the boxes are back at 2017-01-01 with January's days; nothing else changes |
| Gui.Frame.SubmitAddPassenger | code/java/src/AirBooking_GUI.java:823-906 | the handler's new state and inserted row are those of AddPassengerSubmit, with the fields reset only after a successful INSERT, and the invariant holds |
| Gui.Frame.SubmitBookFlight | code/java/src/AirBooking_GUI.java:957-1046 | the handler's new state and inserted booking are those of BookFlightSubmit, with the form reset only after a successful INSERT, and the invariant holds |
| Gui.AddPassengerSubmitFacts | code/java/src/AirBooking_GUI.java:826-898 | a passenger is added iff the form passes, the upper-cased number is unregistered, the pID query answers and the INSERT succeeds; the row holds the scanned pID, both names capitalized, a YYYY-MM-DD date and the country; only the passport, name and country fields are emptied and the date reset; otherwise the date is kept |
| Gui.RegisteredPassportClearsField | code/java/src/AirBooking_GUI.java:899-902 | an already registered number inserts nothing and empties only the passport field |
| Gui.BookFlightSubmitFacts | code/java/src/AirBooking_GUI.java:960-1040 | a booking is made iff the passport is known, the loop ends on a free reference, a flight exists and the INSERT succeeds; the row holds that reference, a YYYY-MM-DD departure, the first flight and the first pID; a failed INSERT leaves the form as it was |
| Gui.DefaultDateIsValid | code/java/src/AirBooking_GUI.java:707-709 | 2017, 01 and 01 are items of their boxes, reading as 2017 and 1 |
| Gui.DefaultDateKeepsFormOk | code/java/src/AirBooking_GUI.java:889-895 | resetting the date keeps the window's invariant |
| Gui.FailedInsertKeepsForm | code/java/src/AirBooking_GUI.java:876-897 | when every check passes but the INSERT fails, nothing is added and the texts and date stay; with a successful INSERT the row is added |

## Left out

- The JDBC connection, the SQL text, and everything the database computes, such as the listing contents, average scores and seat counts. Queries are replaced by their replies. In the console an INSERT's outcome changes nothing afterwards, so the machines record the row they send. In the window the resets follow the INSERT in the same try block, so the submit handlers take whether the INSERT succeeded as a parameter.
- The per-query CREATE/DROP INDEX calls of the console. They are performance side effects and change no decision.
- Printing, dialogs, status labels, timers, Swing layout and the `lock` re-entrancy flag.
- The origin and destination combo-box wiring of the window. The flight query's reply is a parameter of `SubmitBookFlight`.
- The console's `TakeCustomerReview` and `InsertOrUpdateRouteForAirline` state machines. Only their scans and checks are modelled: `ScoreVerdict`, `FoundedVerdict`, `CappedVerdict` and `AvailableId`. The airline-exists Y/N sub-prompt is also left out.
- The window's `Choice_Three` and `Choice_Four` handlers. Only their rID and airId scans are modelled, by `AvailableId`.
- Listings 5 and 9. Their prompt loops follow the same pattern as `Attempts`.
- Integer.parseInt of the ids the database returns: ids are integers already.
- The NullPointerException when `readLine` returns null outside a try block. Running out of input is modelled as the caught exception.
- BookingRef.CliBookRef: when the oracle runs out, the loop stops in state 4. The Java loop would draw more letters. `BookFlightCli` maps that state to -2, which inserts nothing.
- Gui.Frame.SubmitBookFlight: when the oracle runs out before a free reference is found, no booking is made. The Java loop would draw more letters.
- Gui.Frame.DropIndex: the Java loop retries failing drops until the list is empty, and never stops if a drop always fails. The model stops when its finite sequence of outcomes runs out.
- Gui.Frame.SubmitBookFlight: the departure comes from the year, month and day fields. The Java code reads the combo boxes' selected items, which the listeners keep equal to those fields.
- Validation.FoundedVerdict: the console treats an exception in readLine during this prompt as an attempt, not a cancel. The model treats running out of input as a cancel. For a finite script the outcome is the same.
- The window's date listeners run only when the selection changes. `OnYearSelected`, `OnMonthSelected` and `OnDaySelected` therefore require an item different from the current one.
- The text caret is a parameter. For a caret of 0, Java's substring throws and the text stays, so `Trim` leaves it unchanged.

## Findings

| source | as written | input that shows it | evidently intended | confidence | as-written member | corrected member |
|---|---|---|---|---|---|---|
| code/java/src/AirBooking.java:568-579 | the pID gap scan runs over `SELECT pID FROM Passenger`, which has no ORDER BY | pID rows in the order 1, 0, 2 give pID 1, which is taken | the smallest non-negative pID not in use | not executed | KeyAllocator.UnorderedScanCollides | KeyAllocator.SmallestFreeId |
| code/java/src/AirBooking_GUI.java:986-1007 | the window's bookref is not reset inside its retry loop | one collision gives a 20-letter reference | a fresh 10-letter reference on each try | not executed | BookingRef.GuiRefAfterOneCollision | BookingRef.GuiSearchReset |
| code/java/src/AirBooking.java:343-347 | the duplicate-passport query uses the raw input, while the upper-cased number is stored | registered AB12345678, input ab12345678 | the query uses the number as it will be stored | not executed | Validation.LowerCaseDuplicatePasses | Validation.NewPassportVerdictUpper |
| code/java/src/AirBooking.java:838-851 | after the destination prompt, state is set to 3 unconditionally | an empty destination, then a valid date: a booking with an empty flight number | state -1 when no destination was accepted | not executed | BookFlightCli.BookingWithoutFlight | BookFlightCli.AskDestinationChecked |
| code/java/src/AirBooking.java:1830-1858 | listing 8 has no `counter == 0` check after its prompt loop, unlike listings 6 and 7 | after the lines -1, -2, -3 the listing goes on with k = -3 | return when the attempts are used up | not executed | Prompts.UnguardedListingKeepsNegative | Prompts.GuardedListing |
| code/java/src/AirBooking_GUI.java:838-841 | the name limit adds the two lengths but not the space | first name abcdefghijkl, last name mnopqrstuvwx: 25 characters stored | a stored full name of at most 24 characters | not executed | Gui.GuiNameCanExceedCap | Gui.FormErrorCountingSpace |
