/** Index-based iteration over a list. Each loop is a method whose `action`
    changes a state of type `S`; the method returns the final state and the
    indices it visited, in visiting order. */
module Collections {
  import opened Sequences

  /** `forEachByIndex`: `for (i in 0..lastIndex) action(get(i))`. */
  method ForEachByIndex<S, T>(list: seq<T>, action: (S, T) -> S, s0: S) returns (s: S, visits: seq<int>)
    ensures visits == Ascending(|list|)
    ensures s == FoldLeft(action, s0, list)
  {
    var lastIndex := |list| - 1;
    s, visits := s0, [];
    var i := 0;
    while i <= lastIndex
      invariant 0 <= i <= |list|
      invariant visits == Ascending(i)
      invariant s == FoldLeft(action, s0, list[..i])
    {
      FoldLeftStep(action, s0, list, i);
      s := action(s, list[i]);
      visits := visits + [i];
      i := i + 1;
    }
    assert list[..i] == list;
  }

  /** `forEachWithIndex`: `for (i in 0..lastIndex) action(i, get(i))`. */
  method ForEachWithIndex<S, T>(list: seq<T>, action: (S, (int, T)) -> S, s0: S) returns (s: S, visits: seq<int>)
    ensures visits == Ascending(|list|)
    ensures s == FoldLeft(action, s0, Indexed(list))
  {
    var lastIndex := |list| - 1;
    ghost var pairs := Indexed(list);
    s, visits := s0, [];
    var i := 0;
    while i <= lastIndex
      invariant 0 <= i <= |list|
      invariant visits == Ascending(i)
      invariant s == FoldLeft(action, s0, pairs[..i])
    {
      FoldLeftStep(action, s0, pairs, i);
      s := action(s, (i, list[i]));
      visits := visits + [i];
      i := i + 1;
    }
    assert pairs[..i] == pairs;
  }

  /** `forEachReversedByIndex`: `var i = size - 1; while (i >= 0) { action(get(i)); i-- }`.
      The loop ends with `i == -1`. */
  method ForEachReversedByIndex<S, T>(list: seq<T>, action: (S, T) -> S, s0: S) returns (s: S, visits: seq<int>)
    ensures visits == Descending(|list|)
    ensures s == FoldLeft(action, s0, Reverse(list))
  {
    ghost var backwards := Reverse(list);
    s, visits := s0, [];
    var i := |list| - 1;
    while i >= 0
      invariant -1 <= i < |list|
      invariant visits == Descending(|list|)[..|list| - 1 - i]
      invariant s == FoldLeft(action, s0, backwards[..|list| - 1 - i])
    {
      FoldLeftStep(action, s0, backwards, |list| - 1 - i);
      s := action(s, list[i]);
      visits := visits + [i];
      i := i - 1;
    }
    assert backwards[..|list|] == backwards;
  }

  /** `forEachReversedWithIndex`: as above, passing `(i, get(i))`. */
  method ForEachReversedWithIndex<S, T>(list: seq<T>, action: (S, (int, T)) -> S, s0: S) returns (s: S, visits: seq<int>)
    ensures visits == Descending(|list|)
    ensures s == FoldLeft(action, s0, Reverse(Indexed(list)))
  {
    ghost var backwards := Reverse(Indexed(list));
    s, visits := s0, [];
    var i := |list| - 1;
    while i >= 0
      invariant -1 <= i < |list|
      invariant visits == Descending(|list|)[..|list| - 1 - i]
      invariant s == FoldLeft(action, s0, backwards[..|list| - 1 - i])
    {
      FoldLeftStep(action, s0, backwards, |list| - 1 - i);
      s := action(s, (i, list[i]));
      visits := visits + [i];
      i := i - 1;
    }
    assert backwards[..|list|] == backwards;
  }

  /** The forward loop hands the action every element once, in order, and the
      backward loop hands it the same elements in reverse order. */
  method VisitOrders<T>(list: seq<T>) returns (forward: seq<T>, backward: seq<T>)
    ensures forward == list
    ensures backward == Reverse(list)
  {
    var visits;
    forward, visits := ForEachByIndex(list, Record, []);
    FoldRecordLists([], list);
    backward, visits := ForEachReversedByIndex(list, Record, []);
    FoldRecordLists([], Reverse(list));
  }
}
