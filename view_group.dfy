/** A view group's child list and the helpers that read, extend, shrink and
    iterate it. The group and the iterator returned by `children()` are
    objects whose fields the platform and the iterator update in place. */
module ViewGroups {
  import opened Wrappers
  import opened Sequences

  /** Thrown by `addView` for a child that already has a parent. */
  datatype AddError = IllegalStateException

  /** No view appears twice among the children: a view has at most one parent,
      so it is a child of its group at most once. */
  predicate Distinct<V(==)>(children: seq<V>) {
    forall i, j :: 0 <= i < j < |children| ==> children[i] != children[j]
  }

  class ViewGroup<V(==)> {
    /** The children in drawing order; `childCount` is their number. */
    var children: seq<V>

    constructor(initial: seq<V>)
      ensures children == initial
    {
      children := initial;
    }

    /** `getChildAt(index)`, which the extension `get(index)` returns: the
        child at that position, or null outside `0 until childCount`. */
    function GetChildAt(index: int): (child: Option<V>)
      reads this
      ensures 0 <= index < |children| ==> child == Some(children[index])
      ensures index < 0 || |children| <= index ==> child == None
    {
      if 0 <= index < |children| then Some(children[index]) else None
    }

    /** `indexOfChild(child)`, which the extension `get(child)` returns: the
        first position holding `child`, or -1. */
    function IndexOfChild(child: V): (index: int)
      reads this
      ensures -1 <= index < |children|
      ensures index == -1 <==> child !in children
      ensures index != -1 ==> GetChildAt(index) == Some(child)
      ensures forall j :: 0 <= j < index ==> children[j] != child
    {
      IndexOfFirst(children, child)
    }

    /** `contains(child)`: `get(child) != -1`. */
    predicate Contains(child: V)
      reads this
      ensures Contains(child) <==> exists i :: 0 <= i < |children| && GetChildAt(i) == Some(child)
    {
      IndexOfChild(child) != -1
    }

    /** `plusAssign(child)`, that is `addView(child)`: the child goes last. A
        view that is already a child of this group has a parent, so `addView`
        throws and the children stay as they were. */
    method PlusAssign(child: V) returns (outcome: Outcome<AddError>)
      modifies this
      ensures child in old(children) ==> outcome == Fail(IllegalStateException) && children == old(children)
      ensures child !in old(children) ==> outcome.Pass? && children == old(children) + [child]
      ensures Distinct(old(children)) ==> Distinct(children)
    {
      if child in children {
        return Fail(IllegalStateException);
      }
      children := children + [child];
      outcome := Pass;
    }

    /** `minusAssign(child)`, that is `removeView(child)`: the child is taken
        out of its position; a view that is not a child changes nothing. */
    method MinusAssign(child: V)
      modifies this
      ensures child !in old(children) ==> children == old(children)
      ensures child in old(children) ==>
        var i := IndexOfFirst(old(children), child);
        children == old(children)[..i] + old(children)[i + 1..]
      ensures Distinct(old(children)) ==> Distinct(children) && child !in children
    {
      var i := IndexOfChild(child);
      if i != -1 {
        children := children[..i] + children[i + 1..];
      }
    }

    /** `forEach(func)`: `for (i in 0 until childCount) func(getChildAt(i))`. */
    method ForEach<S>(func: (S, V) -> S, s0: S) returns (s: S, visits: seq<int>)
      ensures visits == Ascending(|children|)
      ensures s == FoldLeft(func, s0, children)
    {
      s, visits := s0, [];
      var i := 0;
      while i < |children|
        invariant 0 <= i <= |children|
        invariant visits == Ascending(i)
        invariant s == FoldLeft(func, s0, children[..i])
      {
        FoldLeftStep(func, s0, children, i);
        s := func(s, children[i]);
        visits := visits + [i];
        i := i + 1;
      }
      assert children[..i] == children;
    }

    /** `forEachIndexed(func)`: `for (i in 0 until childCount) func(i, getChildAt(i))`. */
    method ForEachIndexed<S>(func: (S, (int, V)) -> S, s0: S) returns (s: S, visits: seq<int>)
      ensures visits == Ascending(|children|)
      ensures s == FoldLeft(func, s0, Indexed(children))
    {
      ghost var pairs := Indexed(children);
      s, visits := s0, [];
      var i := 0;
      while i < |children|
        invariant 0 <= i <= |children|
        invariant visits == Ascending(i)
        invariant s == FoldLeft(func, s0, pairs[..i])
      {
        FoldLeftStep(func, s0, pairs, i);
        s := func(s, (i, children[i]));
        visits := visits + [i];
        i := i + 1;
      }
      assert pairs[..i] == pairs;
    }

    /** `children()`: an iterator over this group starting at index 0. */
    method Children() returns (it: ChildIterator<V>)
      ensures fresh(it)
      ensures it.group == this && it.index == 0
    {
      it := new ChildIterator(this);
    }
  }

  /** The iterator object of `children()`: it keeps a reference to the group
      and a position that `next()` advances. */
  class ChildIterator<V(==)> {
    const group: ViewGroup<V>
    var index: int

    constructor(group: ViewGroup<V>)
      ensures this.group == group && index == 0
    {
      this.group := group;
      index := 0;
    }

    /** `hasNext()`: `index < childCount`, so from a valid position it holds
        exactly when `next()` would return a child and not null. */
    predicate HasNext()
      reads this, group
      ensures 0 <= index ==> (HasNext() <==> group.GetChildAt(index).Some?)
    {
      index < |group.children|
    }

    /** `next()`: `get(index++)`, the child at the current position (null past
        the end), after which the position is one further. */
    method Next() returns (child: Option<V>)
      modifies this
      ensures index == old(index) + 1
      ensures child == group.GetChildAt(old(index))
    {
      child := group.GetChildAt(index);
      index := index + 1;
    }
  }

  /** Draining an iterator with `while (hasNext()) next()` yields the children
      from its position to the end, in order, and leaves it exhausted. */
  method Drain<V(==)>(it: ChildIterator<V>) returns (visited: seq<V>)
    requires 0 <= it.index <= |it.group.children|
    modifies it
    ensures visited == it.group.children[old(it.index)..]
    ensures it.index == |it.group.children| && !it.HasNext()
  {
    ghost var start := it.index;
    visited := [];
    while it.HasNext()
      invariant start <= it.index <= |it.group.children|
      invariant visited == it.group.children[start..it.index]
      decreases |it.group.children| - it.index
    {
      var child := it.Next();
      visited := visited + [child.value];
    }
  }

  /** Exhausting a fresh `children()` iterator visits the same children, in the
      same order, as `forEach`. */
  method ChildrenMatchesForEach<V(==)>(group: ViewGroup<V>) returns (iterated: seq<V>, visited: seq<V>)
    ensures iterated == visited == group.children
  {
    var it := group.Children();
    iterated := Drain(it);
    var visits;
    visited, visits := group.ForEach(Record, []);
    FoldRecordLists([], group.children);
  }
}
