/** The standard library's stable sort by tick, as far as a score can observe it. */
module StableSort {
  import opened Base
  import opened ScoreTypes

  /** `row` placed after every row of `s` that is not later than it. */
  function Insert<T>(s: seq<Timed<T>>, row: Timed<T>): (r: seq<Timed<T>>)
    ensures |r| == |s| + 1
  {
    if s == [] || s[|s| - 1].time <= row.time then s + [row]
    else Insert(s[..|s| - 1], row) + [s[|s| - 1]]
  }

  function Sort<T>(s: seq<Timed<T>>): (r: seq<Timed<T>>)
    ensures |r| == |s|
  {
    if s == [] then [] else Insert(Sort(s[..|s| - 1]), s[|s| - 1])
  }

  /** The rows of one tick, in order. */
  function AtTick<T>(s: seq<Timed<T>>, time: u64): seq<Timed<T>> {
    if s == [] then []
    else AtTick(s[..|s| - 1], time) + if s[|s| - 1].time == time then [s[|s| - 1]] else []
  }

  ghost predicate Sorted<T>(s: seq<Timed<T>>) {
    forall i, j :: 0 <= i < j < |s| ==> s[i].time <= s[j].time
  }

  lemma {:induction false} InsertSorts<T>(s: seq<Timed<T>>, row: Timed<T>)
    requires Sorted(s)
    ensures Sorted(Insert(s, row))
    ensures forall r :: r in Insert(s, row) ==> r in s || r == row
  {
    if s != [] && s[|s| - 1].time > row.time {
      var front := s[..|s| - 1];
      InsertSorts(front, row);
      forall i | 0 <= i < |s| ensures Insert(front, row)[i].time <= s[|s| - 1].time {
        assert Insert(front, row)[i] in Insert(front, row);
      }
    }
  }

  lemma {:induction false} InsertIsStable<T>(s: seq<Timed<T>>, row: Timed<T>, time: u64)
    requires Sorted(s)
    ensures AtTick(Insert(s, row), time) == AtTick(s, time) + if row.time == time then [row] else []
  {
    if s == [] || s[|s| - 1].time <= row.time {
      assert (s + [row])[..|s|] == s;
    } else {
      var front, last := s[..|s| - 1], s[|s| - 1];
      InsertIsStable(front, row, time);
      assert (Insert(front, row) + [last])[..|s|] == Insert(front, row);
    }
  }

  /** Sorting orders the rows by tick and keeps the rows of each tick, in their original order. */
  lemma {:induction false} SortIsStable<T>(s: seq<Timed<T>>, time: u64)
    ensures Sorted(Sort(s)) && AtTick(Sort(s), time) == AtTick(s, time)
  {
    if s != [] {
      SortIsStable(s[..|s| - 1], time);
      InsertSorts(Sort(s[..|s| - 1]), s[|s| - 1]);
      InsertIsStable(Sort(s[..|s| - 1]), s[|s| - 1], time);
    }
  }

  /** Rows already in order stay as they are. */
  lemma {:induction false} SortKeepsSorted<T>(s: seq<Timed<T>>)
    requires Sorted(s)
    ensures Sort(s) == s
  {
    if s != [] {
      SortKeepsSorted(s[..|s| - 1]);
    }
  }
}
