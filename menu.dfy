/** Helpers on an options menu. A menu is its item list; `size()` and
    `getItem(i)` are the platform's accessors on that list. */
module Menus {
  import opened Sequences

  datatype Menu<T> = Menu(entries: seq<T>)

  /** `size()` */
  function Size<T>(menu: Menu<T>): nat {
    |menu.entries|
  }

  /** `get(index)`, that is `getItem(index)`; the platform throws for an index
      outside the menu. */
  function Get<T>(menu: Menu<T>, index: int): (item: T)
    requires 0 <= index < Size(menu)
    ensures item in menu.entries
    ensures IndexOfFirst(menu.entries, item) <= index
    ensures menu.entries[..index] + [item] + menu.entries[index + 1..] == menu.entries
  {
    menu.entries[index]
  }

  /** `isEmpty()`: `size() == 0`. */
  predicate IsEmpty<T>(menu: Menu<T>)
    ensures IsEmpty(menu) <==> menu.entries == []
  {
    Size(menu) == 0
  }

  /** `lastIndex()`: `size() - 1`, which is -1 for an empty menu. */
  function LastIndex<T>(menu: Menu<T>): (last: int)
    ensures last == -1 <==> IsEmpty(menu)
    ensures !IsEmpty(menu) ==>
      0 <= last < Size(menu) && Get(menu, last) == menu.entries[|menu.entries| - 1]
    ensures !IsEmpty(menu) ==> menu.entries == menu.entries[..last] + [menu.entries[last]]
  {
    Size(menu) - 1
  }

  /** `items()`: `(0 until size()).map { get(it) }`. */
  function Items<T>(menu: Menu<T>): (items: seq<T>)
    ensures items == menu.entries
  {
    seq(Size(menu), i requires 0 <= i < Size(menu) => Get(menu, i))
  }

  /** `get(item)`: `items().indexOfFirst { it == item }`. */
  function IndexOf<T(==)>(menu: Menu<T>, item: T): (index: int)
    ensures -1 <= index < Size(menu)
    ensures index == -1 <==> forall i :: 0 <= i < Size(menu) ==> Get(menu, i) != item
    ensures index != -1 ==> Get(menu, index) == item
    ensures forall i :: 0 <= i < index ==> Get(menu, i) != item
  {
    IndexOfFirst(Items(menu), item)
  }

  /** `contains(item)`: `get(item) != -1`. */
  predicate Contains<T(==)>(menu: Menu<T>, item: T)
    ensures Contains(menu, item) <==> item in menu.entries
  {
    IndexOf(menu, item) != -1
  }

  /** Looking an item up by its own index gives it back. */
  lemma GetIndexOfRoundTrip<T>(menu: Menu<T>, item: T)
    requires Contains(menu, item)
    ensures 0 <= IndexOf(menu, item) < Size(menu) && Get(menu, IndexOf(menu, item)) == item
  {
  }

  /** `forEach(action)`: `items().forEach(action)`. */
  function ForEach<S, T>(menu: Menu<T>, action: (S, T) -> S, s0: S): (s: S)
    ensures IsEmpty(menu) ==> s == s0
    ensures s == FoldLeft(action, s0, menu.entries)
  {
    FoldLeft(action, s0, Items(menu))
  }

  /** `forEachIndexed(action)`: `items().forEachIndexed(action)`. */
  function ForEachIndexed<S, T>(menu: Menu<T>, action: (S, (int, T)) -> S, s0: S): (s: S)
    ensures IsEmpty(menu) ==> s == s0
    ensures s == FoldLeft(action, s0, Indexed(menu.entries))
  {
    FoldLeft(action, s0, Indexed(Items(menu)))
  }

  /** `forEach` hands the action every item once, in ascending index order. */
  lemma ForEachVisitsInOrder<T>(menu: Menu<T>)
    ensures ForEach(menu, Record, []) == seq(Size(menu), i requires 0 <= i < Size(menu) => Get(menu, i))
  {
    FoldRecordLists([], Items(menu));
  }

  /** `forEachIndexed` hands the action each index paired with the item at that
      index, in ascending order. */
  lemma ForEachIndexedVisitsInOrder<T>(menu: Menu<T>)
    ensures ForEachIndexed(menu, Record, []) == seq(Size(menu), i requires 0 <= i < Size(menu) => (i, Get(menu, i)))
  {
    FoldRecordLists([], Indexed(Items(menu)));
  }
}
