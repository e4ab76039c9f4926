/** Specifications shared by the iteration and lookup helpers: a left fold that
    describes what a visiting loop does to the state its action changes, the
    index orders a loop visits, and Kotlin's `indexOfFirst`. */
module Sequences {

  /** The state after applying `action` to `xs` from first to last, starting
      from `s0`: what a loop that calls `action` on each element in turn
      leaves behind. */
  function FoldLeft<S, T>(action: (S, T) -> S, s0: S, xs: seq<T>): S
    decreases |xs|
  {
    if |xs| == 0 then s0
    else action(FoldLeft(action, s0, xs[..|xs| - 1]), xs[|xs| - 1])
  }

  /** One more step of the fold: visiting `xs[..i + 1]` is visiting `xs[..i]`
      and then `xs[i]`. */
  lemma FoldLeftStep<S, T>(action: (S, T) -> S, s0: S, xs: seq<T>, i: int)
    requires 0 <= i < |xs|
    ensures FoldLeft(action, s0, xs[..i + 1]) == action(FoldLeft(action, s0, xs[..i]), xs[i])
  {
    assert xs[..i + 1][..i] == xs[..i];
  }

  /** The action that records what it is given. */
  function Record<T>(visited: seq<T>, x: T): seq<T> {
    visited + [x]
  }

  /** Folding the recording action lists the elements once each, in order. */
  lemma {:induction false} FoldRecordLists<T>(prefix: seq<T>, xs: seq<T>)
    ensures FoldLeft(Record, prefix, xs) == prefix + xs
    decreases |xs|
  {
    if |xs| > 0 {
      FoldRecordLists(prefix, xs[..|xs| - 1]);
      assert prefix + xs[..|xs| - 1] + [xs[|xs| - 1]] == prefix + xs;
    }
  }

  /** `xs` back to front. */
  function Reverse<T>(xs: seq<T>): (r: seq<T>)
    ensures |r| == |xs|
    ensures forall i :: 0 <= i < |xs| ==> r[i] == xs[|xs| - 1 - i]
  {
    seq(|xs|, i requires 0 <= i < |xs| => xs[|xs| - 1 - i])
  }

  lemma ReverseReverse<T>(xs: seq<T>)
    ensures Reverse(Reverse(xs)) == xs
  {
  }

  /** The indices `0, 1, …, n - 1`: Kotlin's `0 until n`, and `0..n - 1`. */
  function Ascending(n: int): (r: seq<int>)
    ensures |r| == if n < 0 then 0 else n
    ensures forall k :: 0 <= k < |r| ==> r[k] == k
  {
    if n <= 0 then [] else Ascending(n - 1) + [n - 1]
  }

  /** The indices `n - 1, n - 2, …, 0` that a loop `var i = n - 1; while (i >= 0) i--`
      runs through. */
  function Descending(n: int): (r: seq<int>)
    ensures |r| == if n < 0 then 0 else n
    ensures forall k :: 0 <= k < |r| ==> r[k] == n - 1 - k
    decreases n
  {
    if n <= 0 then [] else [n - 1] + Descending(n - 1)
  }

  /** Counting down visits the indices of counting up, in reverse. */
  lemma {:induction false} DescendingIsReverse(n: int)
    ensures Descending(n) == Reverse(Ascending(n))
    decreases n
  {
    if n > 0 {
      DescendingIsReverse(n - 1);
      var up := Ascending(n);
      assert up == Ascending(n - 1) + [n - 1];
      assert Reverse(up) == [n - 1] + Reverse(Ascending(n - 1));
    }
  }

  /** Each element paired with its index, as `forEachIndexed` passes them. */
  function Indexed<T>(xs: seq<T>): (r: seq<(int, T)>)
    ensures |r| == |xs|
    ensures forall i :: 0 <= i < |xs| ==> r[i] == (i, xs[i])
  {
    seq(|xs|, i requires 0 <= i < |xs| => (i, xs[i]))
  }

  /** Kotlin's `indexOfFirst { it == x }`, also the platform's `indexOfChild`:
      the least index holding `x`, or -1 when there is none. */
  function IndexOfFirst<T(==)>(xs: seq<T>, x: T): (i: int)
    ensures -1 <= i < |xs|
    ensures i == -1 <==> x !in xs
    ensures 0 <= i ==> xs[i] == x && forall j :: 0 <= j < i ==> xs[j] != x
    decreases |xs|
  {
    if |xs| == 0 then -1
    else if xs[0] == x then 0
    else
      var rest := IndexOfFirst(xs[1..], x);
      if rest == -1 then -1 else rest + 1
  }
}
