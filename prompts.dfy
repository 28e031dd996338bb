/**
 * The bounded prompt loops of the console front end. Every question is asked
 * in a `while (counter > 0)` loop that starts with counter = 3; each answer
 * is classified, and the classification decides whether the loop accepts,
 * asks again with one try fewer, gives up, or asks again without charging a
 * try. Console input is a script of lines; a script that runs out stands for
 * a readLine that fails.
 */
module Prompts {
  import opened Wrappers
  import opened Text

  /** What one answer does to the loop. */
  datatype Verdict =
    | Accept   // break with the counter unchanged: the answer is kept
    | Retry    // counter--, continue
    | Abort    // counter = 0, break (an empty line, a failed read)
    | Repeat   // a caught exception that leaves the counter alone
    | Crash    // an exception nobody catches: the operation ends

  /** Where the loop stopped: the final counter, how many lines it read, whether it crashed. */
  datatype Tally = Tally(counter: int, used: nat, crashed: bool)

  predicate Charged(v: Verdict)
  {
    v.Retry? || v.Repeat?
  }

  /** How many of the lines lo to hi - 1 the check refuses with Retry. */
  function Retries(script: seq<string>, check: string -> Verdict, lo: nat, hi: nat): nat
    requires lo <= hi <= |script|
    decreases hi - lo
  {
    if lo == hi then 0
    else (if check(script[lo]).Retry? then 1 else 0) + Retries(script, check, lo + 1, hi)
  }

  /**
   * The loop from script position pos with the given counter. The loop ends
   * with a positive counter exactly when the last line it read was accepted;
   * every line before that one was refused or repeated.
   */
  function Attempts(script: seq<string>, check: string -> Verdict, pos: nat, counter: int): (t: Tally)
    requires pos <= |script|
    ensures pos <= t.used <= |script|
    ensures counter > 0 && pos < |script| ==> t.used > pos
    ensures t.counter <= counter
    ensures counter >= 0 ==> t.counter >= 0
    ensures t.crashed ==> t.used > pos && check(script[t.used - 1]).Crash?
    ensures t.counter > 0 && !t.crashed ==> t.used > pos && check(script[t.used - 1]).Accept?
    ensures counter > 0 && t.counter <= 0 && t.used > pos ==>
              !check(script[t.used - 1]).Accept? && !check(script[t.used - 1]).Crash?
    ensures forall i :: pos <= i < t.used - 1 ==> Charged(check(script[i]))
    ensures t.counter > 0 ==> t.counter == counter - Retries(script, check, pos, t.used)
    ensures counter > 0 && t.used > pos && check(script[t.used - 1]).Retry? ==>
              t.counter == 0 && (Retries(script, check, pos, t.used) == counter || t.used == |script|)
    ensures counter >= 0 ==> Retries(script, check, pos, t.used) <= counter
    decreases |script| - pos
  {
    if counter <= 0 then Tally(counter, pos, false)
    else if pos == |script| then Tally(0, pos, false)
    else
      match check(script[pos])
      case Accept => Tally(counter, pos + 1, false)
      case Retry => Attempts(script, check, pos + 1, counter - 1)
      case Abort => Tally(0, pos + 1, false)
      case Repeat => Attempts(script, check, pos + 1, counter)
      case Crash => Tally(counter, pos + 1, true)
  }

  /** The source's loop: three tries, reading the script in order from line start. */
  method PromptLoop(script: seq<string>, check: string -> Verdict, start: nat) returns (t: Tally)
    requires start <= |script|
    ensures t == Attempts(script, check, start, 3)
  {
    var counter := 3;
    var pos := start;
    var crashed := false;
    while counter > 0
      invariant start <= pos <= |script|
      invariant !crashed
      invariant Attempts(script, check, pos, counter) == Attempts(script, check, start, 3)
      decreases |script| - pos
    {
      if pos == |script| {
        counter := 0;
        break;
      }
      var verdict := check(script[pos]);
      pos := pos + 1;
      if verdict.Accept? {
        break;
      } else if verdict.Retry? {
        counter := counter - 1;
      } else if verdict.Abort? {
        counter := 0;
        break;
      } else if verdict.Crash? {
        crashed := true;
        break;
      }
    }
    t := Tally(counter, pos, crashed);
  }

  /**
   * Without answers that leave the counter alone, a loop reads at most as
   * many lines as it has tries.
   */
  lemma {:induction false} AtMostCounterReads(script: seq<string>, check: string -> Verdict, pos: nat, counter: int)
    requires pos <= |script|
    requires forall i :: pos <= i < |script| ==> !check(script[i]).Repeat?
    ensures Attempts(script, check, pos, counter).used <= pos + if counter > 0 then counter else 0
    decreases |script| - pos
  {
    if counter > 0 && pos < |script| && check(script[pos]).Retry? {
      AtMostCounterReads(script, check, pos + 1, counter - 1);
    }
  }

  /** Three refused answers in a row use up the three tries. */
  lemma ThreeRefusalsGiveUp(script: seq<string>, check: string -> Verdict)
    requires |script| >= 3
    requires check(script[0]).Retry? && check(script[1]).Retry? && check(script[2]).Retry?
    ensures Attempts(script, check, 0, 3) == Tally(0, 3, false)
  {
    assert Attempts(script, check, 0, 3) == Attempts(script, check, 1, 2);
    assert Attempts(script, check, 1, 2) == Attempts(script, check, 2, 1);
  }

  /** A refused answer costs exactly one try: an accepted answer after it leaves counter - 1. */
  lemma RetryThenAccept(script: seq<string>, check: string -> Verdict, pos: nat, counter: int)
    requires pos + 1 < |script| && counter > 1
    requires check(script[pos]).Retry? && check(script[pos + 1]).Accept?
    ensures Attempts(script, check, pos, counter) == Tally(counter - 1, pos + 2, false)
  {
    assert Attempts(script, check, pos, counter) == Attempts(script, check, pos + 1, counter - 1);
  }

  /** The first accepted answer is the one the loop keeps, if no earlier answer ended it. */
  lemma {:induction false} FirstAcceptWins(script: seq<string>, check: string -> Verdict, pos: nat, counter: int, j: nat)
    requires pos <= j < |script|
    requires forall i :: pos <= i < j ==> check(script[i]).Repeat?
    requires check(script[j]).Accept?
    requires counter > 0
    ensures Attempts(script, check, pos, counter) == Tally(counter, j + 1, false)
    decreases j - pos
  {
    if pos < j {
      FirstAcceptWins(script, check, pos + 1, counter, j);
    }
  }

  /**
   * The "how many rows" prompt of ListMostPopularDestinations,
   * ListHighestRatedRoutes and ListFlightFromOriginToDestinationInOrderOfDuration.
   * An empty line or 0 returns from the operation; a positive number is
   * kept; a negative number or a line Integer.parseInt refuses costs a try.
   * The whole body sits in one try block, so a failed read (the script ran
   * out) also costs a try instead of ending the loop. The last parsed
   * number stays in k even when it was refused.
   */
  datatype KPrompt = Returned | Done(counter: int, k: int)

  function ReadK(script: seq<string>, pos: nat, counter: int, k: int): (r: KPrompt)
    requires pos <= |script|
    ensures r.Done? && counter >= 0 ==> 0 <= r.counter <= counter
    ensures r.Done? && r.counter > 0 ==> r.k > 0
    ensures r.Done? && k <= 0 && r.k > 0 ==> r.counter > 0
    ensures counter <= 0 ==> r == Done(counter, k)
    ensures counter > 0 && pos == |script| ==> r == Done(0, k)
    ensures counter > 0 && pos < |script| && (script[pos] == [] || ParseInt(script[pos]) == Some(0)) ==>
              r == Returned
    ensures counter > 0 && pos < |script| && ParseInt(script[pos]).Some? && ParseInt(script[pos]).value > 0 ==>
              r == Done(counter, ParseInt(script[pos]).value)
    decreases |script| - pos, if counter > 0 then counter else 0
  {
    if counter <= 0 then Done(counter, k)
    else if pos == |script| then ReadK(script, pos, counter - 1, k)
    else
      var line := script[pos];
      if |line| == 0 then Returned
      else
        match ParseInt(line)
        case None => ReadK(script, pos + 1, counter - 1, k)
        case Some(v) =>
          if v > 0 then Done(counter, v)
          else if v < 0 then ReadK(script, pos + 1, counter - 1, v)
          else Returned
  }

  /** A refused count, negative or unparsable, costs exactly one try before a positive count is kept. */
  lemma RefusedCountCostsOneTry(script: seq<string>, pos: nat, counter: int, k: int)
    requires pos + 1 < |script| && counter > 1 && script[pos] != []
    requires ParseInt(script[pos]).None? || ParseInt(script[pos]).value < 0
    requires ParseInt(script[pos + 1]).Some? && ParseInt(script[pos + 1]).value > 0
    ensures ReadK(script, pos, counter, k) == Done(counter - 1, ParseInt(script[pos + 1]).value)
  {
    var k' := if ParseInt(script[pos]).None? then k else ParseInt(script[pos]).value;
    assert ReadK(script, pos, counter, k) == ReadK(script, pos + 1, counter - 1, k');
  }

  /** The loop itself, starting from counter = 3 and k_most = 0. */
  method ReadTopK(script: seq<string>) returns (r: KPrompt)
    ensures r == ReadK(script, 0, 3, 0)
  {
    var counter := 3;
    var kMost := 0;
    var pos := 0;
    while counter > 0
      invariant pos <= |script|
      invariant ReadK(script, pos, counter, kMost) == ReadK(script, 0, 3, 0)
      decreases |script| - pos, if counter > 0 then counter else 0
    {
      if pos == |script| {
        counter := counter - 1;
        continue;
      }
      var line := script[pos];
      pos := pos + 1;
      if |line| == 0 {
        return Returned;
      }
      var parsed := ParseInt(line);
      if parsed.None? {
        counter := counter - 1;
        continue;
      }
      kMost := parsed.value;
      if kMost > 0 {
        break;
      } else if kMost < 0 {
        counter := counter - 1;
        continue;
      } else {
        return Returned;
      }
    }
    r := Done(counter, kMost);
  }

  /** How many rows a listing asks the database for; Leave returns without a query. */
  datatype Listing = Show(k: int) | Leave

  /** ListMostPopularDestinations and ListHighestRatedRoutes: they return when the tries ran out. */
  function GuardedListing(script: seq<string>): (l: Listing)
    ensures l.Show? ==> l.k > 0
    ensures |script| == 0 ==> l == Leave
    ensures |script| > 0 && (script[0] == [] || ParseInt(script[0]) == Some(0)) ==> l == Leave
    ensures |script| > 0 && ParseInt(script[0]).Some? && ParseInt(script[0]).value > 0 ==>
              l == Show(ParseInt(script[0]).value)
  {
    match ReadK(script, 0, 3, 0)
    case Returned => Leave
    case Done(counter, k) => if counter == 0 then Leave else Show(k)
  }

  /** ListFlightFromOriginToDestinationInOrderOfDuration has no such check: it goes on with k_most. */
  function UnguardedListing(script: seq<string>): Listing
  {
    match ReadK(script, 0, 3, 0)
    case Returned => Leave
    case Done(_, k) => Show(k)
  }

  /** Three negative answers: the listing is asked for a negative number of rows. */
  lemma UnguardedListingKeepsNegative()
    ensures UnguardedListing(["-1", "-2", "-3"]) == Show(-3)
    ensures GuardedListing(["-1", "-2", "-3"]) == Leave
  {
    assert ParseInt("-1") == Some(-1);
    assert ParseInt("-2") == Some(-2);
    assert ParseInt("-3") == Some(-3);
  }

  /** Three unparsable answers: the listing goes on with the initial k_most of 0. */
  lemma UnguardedListingKeepsZero()
    ensures UnguardedListing(["x", "y", "z"]) == Show(0)
  {
    assert ParseInt("x") == None;
    assert ParseInt("y") == None;
    assert ParseInt("z") == None;
  }

  /** Wherever the two agree, the guarded version only ever drops a request. */
  lemma GuardedRefinesUnguarded(script: seq<string>)
    ensures GuardedListing(script).Show? ==> UnguardedListing(script) == GuardedListing(script)
    ensures UnguardedListing(script).Show? && UnguardedListing(script).k > 0 ==>
              GuardedListing(script) == UnguardedListing(script)
  {
  }
}
