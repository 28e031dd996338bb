/**
 * The booking-reference retry loops. Both front ends draw letters with
 * random.nextInt(26) from "ABCDEFGHIJKLMNOPQRSTUVWXYZ" and ask the Booking
 * table whether the reference is taken. Randomness is an oracle: the finite
 * sequence of values nextInt(26) returns, ten per candidate. The lookup is
 * the row count of SELECT bookRef FROM Booking WHERE bookRef = candidate.
 */
module BookingRef {
  import opened Datastore

  const LETTERS: string := "ABCDEFGHIJKLMNOPQRSTUVWXYZ"

  /** One value of random.nextInt(26). */
  type Draw = d: int | 0 <= d < 26

  /** A reference is made of the upper-case letters A to Z only. */
  predicate IsRefText(s: string)
  {
    forall i :: 0 <= i < |s| ==> 'A' <= s[i] <= 'Z'
  }

  /** letters.charAt(d) */
  function Letter(d: Draw): (c: char)
    ensures 'A' <= c <= 'Z'
  {
    LETTERS[d]
  }

  /** The letters spelled by a run of draws. */
  function Spell(ds: seq<Draw>): (s: string)
    ensures |s| == |ds| && IsRefText(s)
  {
    seq(|ds|, i requires 0 <= i < |ds| => Letter(ds[i]))
  }

  lemma SpellConcat(a: seq<Draw>, b: seq<Draw>)
    ensures Spell(a + b) == Spell(a) + Spell(b)
  {
  }

  /** Candidate number k spells draws 10k .. 10k+9. */
  function Window(draws: seq<Draw>, k: nat): string
    requires 10 * k + 10 <= |draws|
  {
    Spell(draws[10 * k .. 10 * k + 10])
  }

  /** The lookup found a row, so the loop draws again. */
  predicate Taken(reply: Reply<nat>)
  {
    reply.Ok? && reply.value > 0
  }

  /**
   * Where the BookFlight loop of the console front end ends: the state it
   * sets and the last candidate. State 5: a candidate nobody holds; state -1:
   * the lookup threw. When the oracle has no full candidate left the model
   * stops with the state still 4 (the program would go on drawing).
   */
  datatype Search = Search(state: int, bookref: string)

  function CliSearch(draws: seq<Draw>, lookup: string -> Reply<nat>, k: nat, current: string): Search
    decreases |draws| - 10 * k
  {
    if 10 * k + 10 > |draws| then Search(4, current)
    else
      var candidate := Window(draws, k);
      var reply := lookup(candidate);
      if reply.DbError? then Search(-1, candidate)
      else if reply.value > 0 then CliSearch(draws, lookup, k + 1, candidate)
      else Search(5, candidate)
  }

  /**
   * The console loop: bookref is reset to "" before each candidate and
   * rebuilt from ten fresh draws.
   */
  method CliBookRef(draws: seq<Draw>, lookup: string -> Reply<nat>) returns (state: int, bookref: string)
    ensures Search(state, bookref) == CliSearch(draws, lookup, 0, "")
  {
    state := 4;
    bookref := "";
    var k := 0;
    while 10 * k + 10 <= |draws|
      invariant CliSearch(draws, lookup, k, bookref) == CliSearch(draws, lookup, 0, "")
      invariant state == 4
      decreases |draws| - 10 * k
    {
      bookref := "";
      for i := 0 to 10
        invariant bookref == Spell(draws[10 * k .. 10 * k + i])
      {
        assert draws[10 * k .. 10 * k + i + 1] == draws[10 * k .. 10 * k + i] + [draws[10 * k + i]];
        bookref := bookref + [LETTERS[draws[10 * k + i]]];
      }
      var reply := lookup(bookref);
      if reply.DbError? {
        state := -1;
        break;
      }
      if reply.value == 0 {
        state := 5;
        break;
      }
      k := k + 1;
    }
  }

  /**
   * The console loop ends in state 4, 5 or -1: state 5 with a candidate
   * whose lookup returned no row, state -1 with one whose lookup threw.
   */
  lemma {:induction false} CliSearchReplies(draws: seq<Draw>, lookup: string -> Reply<nat>, k: nat, current: string)
    ensures CliSearch(draws, lookup, k, current).state in {4, 5, -1}
    ensures CliSearch(draws, lookup, k, current).state == 5 ==>
              lookup(CliSearch(draws, lookup, k, current).bookref) == Ok(0)
    ensures CliSearch(draws, lookup, k, current).state == -1 ==>
              lookup(CliSearch(draws, lookup, k, current).bookref) == DbError
    decreases |draws| - 10 * k
  {
    if 10 * k + 10 <= |draws| && Taken(lookup(Window(draws, k))) {
      CliSearchReplies(draws, lookup, k + 1, Window(draws, k));
    }
  }

  /**
   * Every way the console loop ends names a ten-letter candidate built from
   * one window of draws, after every earlier window's lookup found a row.
   */
  lemma {:induction false} CliSearchOutcome(draws: seq<Draw>, lookup: string -> Reply<nat>, k: nat, current: string)
    ensures CliSearch(draws, lookup, k, current).state != 4 ==>
              exists j :: k <= j && 10 * j + 10 <= |draws|
                && CliSearch(draws, lookup, k, current).bookref == Window(draws, j)
                && forall i :: k <= i < j ==> Taken(lookup(Window(draws, i)))
    decreases |draws| - 10 * k
  {
    var here := CliSearch(draws, lookup, k, current);
    if 10 * k + 10 <= |draws| {
      var candidate := Window(draws, k);
      if Taken(lookup(candidate)) {
        CliSearchOutcome(draws, lookup, k + 1, candidate);
        var r := CliSearch(draws, lookup, k + 1, candidate);
        assert here == r;
        if r.state != 4 {
          var j :| k + 1 <= j && 10 * j + 10 <= |draws| && r.bookref == Window(draws, j)
            && forall i :: k + 1 <= i < j ==> Taken(lookup(Window(draws, i)));
          assert forall i :: k <= i < j ==> Taken(lookup(Window(draws, i)));
        }
      } else {
        assert here.bookref == Window(draws, k);
      }
    }
  }

  /** Conversely, the first window whose lookup finds no row is the reference chosen. */
  lemma {:induction false} CliSearchTakesFirstFree(draws: seq<Draw>, lookup: string -> Reply<nat>, k: nat, current: string, j: nat)
    requires k <= j && 10 * j + 10 <= |draws|
    requires forall i :: k <= i < j ==> Taken(lookup(Window(draws, i)))
    requires !Taken(lookup(Window(draws, j)))
    ensures CliSearch(draws, lookup, k, current).bookref == Window(draws, j)
    ensures CliSearch(draws, lookup, k, current).state == if lookup(Window(draws, j)).DbError? then -1 else 5
    decreases j - k
  {
    if k < j {
      CliSearchTakesFirstFree(draws, lookup, k + 1, Window(draws, k), j);
    }
  }

  /** The reference the BookFlight loop accepts is ten letters A to Z that no booking holds. */
  lemma CliAcceptedRefIsFresh(draws: seq<Draw>, lookup: string -> Reply<nat>)
    ensures CliSearch(draws, lookup, 0, "").state == 5 ==>
              |CliSearch(draws, lookup, 0, "").bookref| == 10
              && IsRefText(CliSearch(draws, lookup, 0, "").bookref)
              && lookup(CliSearch(draws, lookup, 0, "").bookref) == Ok(0)
  {
    CliSearchOutcome(draws, lookup, 0, "");
    CliSearchReplies(draws, lookup, 0, "");
  }

  /**
   * Where the GUI loop (Choice_Two) ends. It never resets bookref, so each
   * retry appends ten more letters; it leaves the loop on a lookup with no
   * row and also when the lookup throws, and then books whatever it holds.
   */
  datatype Draft = Chosen(bookref: string) | OutOfDraws(partial: string)

  function GuiSearch(draws: seq<Draw>, lookup: string -> Reply<nat>, k: nat, acc: string): Draft
    decreases |draws| - 10 * k
  {
    if 10 * k + 10 > |draws| then OutOfDraws(acc)
    else
      var candidate := acc + Window(draws, k);
      if Taken(lookup(candidate)) then GuiSearch(draws, lookup, k + 1, candidate)
      else Chosen(candidate)
  }

  /** The GUI loop as written: the letters are appended to the previous candidate. */
  method GuiBookRef(draws: seq<Draw>, lookup: string -> Reply<nat>) returns (bookref: string, ended: bool)
    ensures (if ended then Chosen(bookref) else OutOfDraws(bookref)) == GuiSearch(draws, lookup, 0, "")
  {
    bookref := "";
    ended := false;
    var k := 0;
    while 10 * k + 10 <= |draws|
      invariant GuiSearch(draws, lookup, k, bookref) == GuiSearch(draws, lookup, 0, "")
      invariant !ended
      decreases |draws| - 10 * k
    {
      ghost var before := bookref;
      for i := 0 to 10
        invariant bookref == before + Spell(draws[10 * k .. 10 * k + i])
      {
        assert draws[10 * k .. 10 * k + i + 1] == draws[10 * k .. 10 * k + i] + [draws[10 * k + i]];
        bookref := bookref + [LETTERS[draws[10 * k + i]]];
      }
      var reply := lookup(bookref);
      if !(reply.Ok? && reply.value > 0) {
        ended := true;
        break;
      }
      k := k + 1;
    }
  }

  /** The GUI loop stops only on a candidate the lookup reports free. */
  lemma {:induction false} GuiChosenIsFree(draws: seq<Draw>, lookup: string -> Reply<nat>, k: nat, acc: string)
    ensures GuiSearch(draws, lookup, k, acc).Chosen? ==> !Taken(lookup(GuiSearch(draws, lookup, k, acc).bookref))
    decreases |draws| - 10 * k
  {
    if 10 * k + 10 <= |draws| && Taken(lookup(acc + Window(draws, k))) {
      GuiChosenIsFree(draws, lookup, k + 1, acc + Window(draws, k));
    }
  }

  lemma {:induction false} GuiSearchGrows(draws: seq<Draw>, lookup: string -> Reply<nat>, k: nat, acc: string)
    requires 10 * k <= |draws| && acc == Spell(draws[..10 * k])
    ensures GuiSearch(draws, lookup, k, acc).Chosen? ==>
              exists n :: k <= n && 10 * n + 10 <= |draws|
                && GuiSearch(draws, lookup, k, acc).bookref == Spell(draws[..10 * n + 10])
                && forall i :: k <= i < n ==> Taken(lookup(Spell(draws[..10 * i + 10])))
    decreases |draws| - 10 * k
  {
    if 10 * k + 10 <= |draws| {
      assert draws[..10 * k + 10] == draws[..10 * k] + draws[10 * k .. 10 * k + 10];
      SpellConcat(draws[..10 * k], draws[10 * k .. 10 * k + 10]);
      var candidate := acc + Window(draws, k);
      assert candidate == Spell(draws[..10 * k + 10]);
      if Taken(lookup(candidate)) {
        GuiSearchGrows(draws, lookup, k + 1, candidate);
        var r := GuiSearch(draws, lookup, k + 1, candidate);
        if r.Chosen? {
          var n :| k + 1 <= n && 10 * n + 10 <= |draws| && r.bookref == Spell(draws[..10 * n + 10])
            && forall i :: k + 1 <= i < n ==> Taken(lookup(Spell(draws[..10 * i + 10])));
          assert forall i :: k <= i < n ==> Taken(lookup(Spell(draws[..10 * i + 10])));
        }
      }
    }
  }

  /**
   * After n collisions the GUI candidate is the first 10(n+1) letters drawn,
   * so it is 10(n+1) letters long.
   */
  lemma GuiRefLengthCountsCollisions(draws: seq<Draw>, lookup: string -> Reply<nat>)
    ensures GuiSearch(draws, lookup, 0, "").Chosen? ==>
              |GuiSearch(draws, lookup, 0, "").bookref| % 10 == 0
              && |GuiSearch(draws, lookup, 0, "").bookref| >= 10
    ensures GuiSearch(draws, lookup, 0, "").Chosen? ==>
              exists n :: 0 <= n && 10 * n + 10 <= |draws|
                && GuiSearch(draws, lookup, 0, "").bookref == Spell(draws[..10 * n + 10])
                && forall i :: 0 <= i < n ==> Taken(lookup(Spell(draws[..10 * i + 10])))
  {
    assert draws[..0] == [];
    GuiSearchGrows(draws, lookup, 0, "");
  }

  /** One collision is enough for the GUI to book a twenty-letter reference. */
  lemma GuiRefAfterOneCollision(draws: seq<Draw>, lookup: string -> Reply<nat>)
    requires |draws| >= 20
    requires Taken(lookup(Spell(draws[..10])))
    requires !Taken(lookup(Spell(draws[..20])))
    ensures GuiSearch(draws, lookup, 0, "") == Chosen(Spell(draws[..20]))
    ensures |GuiSearch(draws, lookup, 0, "").bookref| == 20
  {
    assert draws[..20] == draws[..10] + draws[10..20];
    assert draws[..10] == draws[0..10];
    SpellConcat(draws[..10], draws[10..20]);
    var first := Spell(draws[..10]);
    assert "" + Window(draws, 0) == first;
    assert GuiSearch(draws, lookup, 0, "") == GuiSearch(draws, lookup, 1, first);
    assert first + Window(draws, 1) == Spell(draws[..20]);
  }

  /**
   * The GUI loop with bookref reset before each candidate, as the console
   * version does: every reference it books is ten letters A to Z, and it
   * books it only when the lookup did not report it taken.
   */
  function GuiSearchReset(draws: seq<Draw>, lookup: string -> Reply<nat>, k: nat): (d: Draft)
    ensures d.Chosen? ==> |d.bookref| == 10 && IsRefText(d.bookref) && !Taken(lookup(d.bookref))
    decreases |draws| - 10 * k
  {
    if 10 * k + 10 > |draws| then OutOfDraws("")
    else
      var candidate := Window(draws, k);
      if Taken(lookup(candidate)) then GuiSearchReset(draws, lookup, k + 1)
      else Chosen(candidate)
  }
}
