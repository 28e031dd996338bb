/**
 * The gap scan that both front ends use to pick a new pID, rID or airId.
 *
 * The query result is a list of rows, each a list of integer cells. The scan
 * keeps a candidate, starting at 0; inside a row it bumps the candidate for
 * every cell equal to it and leaves the row at the first cell that differs.
 * That `break` leaves only the inner loop over the row's cells: the next row
 * is still compared. The key queries select one column, so each row holds
 * one id (see Column).
 */
module KeyAllocator {

  /** The inner loop over one row's cells, from candidate avail. */
  function ScanRow(avail: int, row: seq<int>): int
    decreases |row|
  {
    if row == [] || row[0] != avail then avail else ScanRow(avail + 1, row[1..])
  }

  /** The outer loop over the remaining rows, from candidate avail. */
  function ScanRows(avail: int, rows: seq<seq<int>>): int
    decreases |rows|
  {
    if rows == [] then avail else ScanRows(ScanRow(avail, rows[0]), rows[1..])
  }

  /** The rows of a one-column query such as SELECT pID FROM Passenger. */
  function Column(ids: seq<int>): (rows: seq<seq<int>>)
  {
    if ids == [] then [] else [[ids[0]]] + Column(ids[1..])
  }

  /** The ids come back in ascending order without repetition (ORDER BY on a key). */
  predicate StrictlyAscending(ids: seq<int>)
  {
    forall i, j :: 0 <= i < j < |ids| ==> ids[i] < ids[j]
  }

  /** The number of cells of all the rows. */
  function CellCount(rows: seq<seq<int>>): nat
  {
    if rows == [] then 0 else |rows[0]| + CellCount(rows[1..])
  }

  lemma {:induction false} ScanRowBounds(avail: int, row: seq<int>)
    ensures avail <= ScanRow(avail, row) <= avail + |row|
    decreases |row|
  {
    if row != [] && row[0] == avail {
      ScanRowBounds(avail + 1, row[1..]);
    }
  }

  lemma {:induction false} ScanRowsBounds(avail: int, rows: seq<seq<int>>)
    ensures avail <= ScanRows(avail, rows) <= avail + CellCount(rows)
    decreases |rows|
  {
    if rows != [] {
      ScanRowBounds(avail, rows[0]);
      ScanRowsBounds(ScanRow(avail, rows[0]), rows[1..]);
    }
  }

  /**
   * The nested for-loops with the inner break, as written in AddPassenger,
   * TakeCustomerReview, InsertOrUpdateRouteForAirline and the GUI handlers.
   */
  method AvailableId(rows: seq<seq<int>>) returns (id: int)
    ensures id == ScanRows(0, rows)
    ensures 0 <= id <= CellCount(rows)
  {
    id := 0;
    var i := 0;
    while i < |rows|
      invariant 0 <= i <= |rows|
      invariant ScanRows(id, rows[i..]) == ScanRows(0, rows)
    {
      var row := rows[i];
      ghost var start := id;
      var j := 0;
      while j < |row|
        invariant 0 <= j <= |row|
        invariant ScanRow(id, row[j..]) == ScanRow(start, row)
      {
        if id != row[j] {
          break;
        }
        id := id + 1;
        j := j + 1;
      }
      assert ScanRow(id, row[j..]) == id;
      assert rows[i..][1..] == rows[i + 1..];
      i := i + 1;
    }
    ScanRowsBounds(0, rows);
  }

  /** One step of the scan over a one-column result. */
  lemma ScanColumnStep(avail: int, ids: seq<int>)
    requires ids != []
    ensures ScanRows(avail, Column(ids))
         == ScanRows(if ids[0] == avail then avail + 1 else avail, Column(ids[1..]))
  {
    assert Column(ids)[0] == [ids[0]];
    assert Column(ids)[1..] == Column(ids[1..]);
    assert [ids[0]][1..] == [];
    assert ScanRow(avail + 1, []) == avail + 1;
  }

  /**
   * Whatever the order of the ids, every value below the scan's result is an
   * existing id, and the result is at most the number of ids.
   */
  lemma {:induction false} ScanColumnBelowIsTaken(avail: int, ids: seq<int>)
    ensures avail <= ScanRows(avail, Column(ids)) <= avail + |ids|
    ensures forall k :: avail <= k < ScanRows(avail, Column(ids)) ==> k in ids
    decreases |ids|
  {
    if ids != [] {
      var next := if ids[0] == avail then avail + 1 else avail;
      ScanColumnStep(avail, ids);
      ScanColumnBelowIsTaken(next, ids[1..]);
      var r := ScanRows(avail, Column(ids));
      forall k | avail <= k < r ensures k in ids {
        if k < next {
          assert k == avail && ids[0] == avail;
        } else {
          assert k in ids[1..];
        }
      }
    }
  }

  /** If every id is above the candidate, the scan leaves the candidate alone. */
  lemma {:induction false} ScanColumnSkipsLarger(avail: int, ids: seq<int>)
    requires forall i :: 0 <= i < |ids| ==> ids[i] > avail
    ensures ScanRows(avail, Column(ids)) == avail
    decreases |ids|
  {
    if ids != [] {
      ScanColumnStep(avail, ids);
      ScanColumnSkipsLarger(avail, ids[1..]);
    }
  }

  lemma {:induction false} ScanAscendingFrom(avail: int, ids: seq<int>)
    requires StrictlyAscending(ids)
    requires forall i :: 0 <= i < |ids| ==> ids[i] >= avail
    ensures ScanRows(avail, Column(ids)) !in ids
    decreases |ids|
  {
    if ids != [] {
      ScanColumnStep(avail, ids);
      if ids[0] == avail {
        ScanAscendingFrom(avail + 1, ids[1..]);
        ScanColumnBelowIsTaken(avail + 1, ids[1..]);
      } else {
        ScanColumnSkipsLarger(avail, ids[1..]);
      }
    }
  }

  /**
   * On ascending, distinct, non-negative ids the scan returns the smallest
   * non-negative integer that is not an id: a fresh key, and no smaller one
   * is free.
   */
  lemma AscendingScanIsSmallestFree(ids: seq<int>)
    requires StrictlyAscending(ids)
    requires forall i :: 0 <= i < |ids| ==> ids[i] >= 0
    ensures ScanRows(0, Column(ids)) >= 0
    ensures ScanRows(0, Column(ids)) !in ids
    ensures forall k :: 0 <= k < ScanRows(0, Column(ids)) ==> k in ids
  {
    ScanAscendingFrom(0, ids);
    ScanColumnBelowIsTaken(0, ids);
  }

  /** The ids 0, 1, ..., n-1 in order. */
  function Range(n: nat): (ids: seq<int>)
  {
    seq(n, i requires 0 <= i < n => i)
  }

  /** A table whose keys are exactly 0..n-1 gets the key n. */
  lemma ContiguousIdsGiveCount(n: nat)
    ensures ScanRows(0, Column(Range(n))) == n
  {
    var ids := Range(n);
    AscendingScanIsSmallestFree(ids);
    ScanColumnBelowIsTaken(0, ids);
    forall k | 0 <= k < n ensures k in ids {
      assert ids[k] == k;
    }
  }

  /**
   * The scan does not sort. SELECT pID FROM Passenger has no ORDER BY, and
   * on the rows [1], [0], [2] the scan returns 1, which is already a key.
   */
  lemma UnorderedScanCollides()
    ensures ScanRows(0, Column([1, 0, 2])) == 1
    ensures 1 in [1, 0, 2]
  {
    assert Column([1, 0, 2]) == [[1], [0], [2]];
  }

  /**
   * The allocator the scan is meant to be: the least non-negative integer
   * that is not a key, whatever order the keys come in.
   */
  method SmallestFreeId(ids: set<int>) returns (id: nat)
    ensures id !in ids
    ensures forall k :: 0 <= k < id ==> k in ids
  {
    id := 0;
    while id in ids
      invariant forall k :: 0 <= k < id ==> k in ids
      invariant id <= |ids|
      decreases |ids| - id
    {
      id := id + 1;
      TakenPrefixFits(ids, id);
    }
  }

  /** If 0..n-1 are all keys there are at least n keys. */
  lemma {:induction false} TakenPrefixFits(ids: set<int>, n: nat)
    requires forall k :: 0 <= k < n ==> k in ids
    ensures n <= |ids|
  {
    if n > 0 {
      var rest := ids - {n - 1};
      assert n - 1 in ids;
      assert |rest| == |ids| - 1;
      TakenPrefixFits(rest, n - 1);
    }
  }

  /**
   * On an ordered key listing (the ORDER BY query of the corrected code) the
   * scan and SmallestFreeId agree: both name the least free key.
   */
  lemma OrderedScanMatchesSmallestFree(ids: seq<int>, id: nat)
    requires StrictlyAscending(ids)
    requires forall i :: 0 <= i < |ids| ==> ids[i] >= 0
    requires id !in ids && forall k :: 0 <= k < id ==> k in ids
    ensures ScanRows(0, Column(ids)) == id
  {
    AscendingScanIsSmallestFree(ids);
  }
}
