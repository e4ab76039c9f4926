/** The compound-drawable helpers of a text view. The view keeps two arrays of
    drawable slots, absolute (left, top, right, bottom) and relative (start,
    top, end, bottom); `setCompoundDrawables` replaces the first and
    `setCompoundDrawablesRelative` the second. A slot holds a drawable or null.
    The platform's rule that relative drawables take precedence over absolute
    ones when drawn is not part of this model. */
module TextViews {
  import opened Wrappers

  /** The arrays the platform hands out have four slots; the helpers also
      handle an empty one. */
  predicate SlotsShape<D>(slots: seq<Option<D>>) {
    |slots| == 0 || |slots| == 4
  }

  /** Slot `i` of an array, or null when the array is empty. */
  function Slot<D>(slots: seq<Option<D>>, i: nat): (d: Option<D>)
    requires SlotsShape(slots) && i < 4
    ensures |slots| == 0 ==> d == None
    ensures |slots| == 4 ==> d == slots[i]
  {
    if |slots| == 0 then None else slots[i]
  }

  class TextView<D> {
    /** `compoundDrawables`: left, top, right, bottom. */
    var compoundDrawables: seq<Option<D>>
    /** `compoundDrawablesRelative`: start, top, end, bottom. */
    var compoundDrawablesRelative: seq<Option<D>>

    ghost predicate Valid()
      reads this
    {
      SlotsShape(compoundDrawables) && SlotsShape(compoundDrawablesRelative)
    }

    constructor(absolute: seq<Option<D>>, relative: seq<Option<D>>)
      requires SlotsShape(absolute) && SlotsShape(relative)
      ensures Valid()
      ensures compoundDrawables == absolute && compoundDrawablesRelative == relative
    {
      compoundDrawables := absolute;
      compoundDrawablesRelative := relative;
    }

    /** `compoundDrawableLeft`: slot 0 of the absolute array. */
    function Left(): Option<D>
      requires Valid()
      reads this
    {
      Slot(compoundDrawables, 0)
    }

    /** `compoundDrawableTop`: slot 1 of the absolute array. */
    function Top(): Option<D>
      requires Valid()
      reads this
    {
      Slot(compoundDrawables, 1)
    }

    /** `compoundDrawableRight`: slot 2 of the absolute array. */
    function Right(): Option<D>
      requires Valid()
      reads this
    {
      Slot(compoundDrawables, 2)
    }

    /** `compoundDrawableBottom`: slot 3 of the absolute array. */
    function Bottom(): Option<D>
      requires Valid()
      reads this
    {
      Slot(compoundDrawables, 3)
    }

    /** `compoundDrawableStart`: slot 0 of the relative array. */
    function Start(): Option<D>
      requires Valid()
      reads this
    {
      Slot(compoundDrawablesRelative, 0)
    }

    /** `compoundDrawableEnd`: slot 2 of the relative array. */
    function End(): Option<D>
      requires Valid()
      reads this
    {
      Slot(compoundDrawablesRelative, 2)
    }

    /** `setOptionalCompoundDrawables(left, top, right, bottom)`: an omitted slot
        keeps the drawable it holds (null when the array was empty). */
    method SetOptionalCompoundDrawables(left: Arg<Option<D>>, top: Arg<Option<D>>, right: Arg<Option<D>>, bottom: Arg<Option<D>>)
      requires Valid()
      modifies this
      ensures Valid() && |compoundDrawables| == 4
      ensures Left() == left.Or(old(Left())) && Top() == top.Or(old(Top()))
      ensures Right() == right.Or(old(Right())) && Bottom() == bottom.Or(old(Bottom()))
      ensures compoundDrawablesRelative == old(compoundDrawablesRelative)
      ensures left.Keep? && top.Keep? && right.Keep? && bottom.Keep? && |old(compoundDrawables)| == 4 ==>
        compoundDrawables == old(compoundDrawables)
    {
      compoundDrawables := [left.Or(Left()), top.Or(Top()), right.Or(Right()), bottom.Or(Bottom())];
    }

    /** `setOptionalRelativeCompoundDrawables(start, top, end, bottom)`: the
        defaults read the current start and end, and the top and bottom of the
        absolute array. */
    method SetOptionalRelativeCompoundDrawables(start: Arg<Option<D>>, top: Arg<Option<D>>, end: Arg<Option<D>>, bottom: Arg<Option<D>>)
      requires Valid()
      modifies this
      ensures Valid()
      ensures Start() == start.Or(old(Start())) && End() == end.Or(old(End()))
      ensures compoundDrawablesRelative ==
        [start.Or(old(Start())), top.Or(old(Top())), end.Or(old(End())), bottom.Or(old(Bottom()))]
      ensures compoundDrawables == old(compoundDrawables)
    {
      compoundDrawablesRelative := [start.Or(Start()), top.Or(Top()), end.Or(End()), bottom.Or(Bottom())];
    }

    /** `compoundDrawableLeft = value`: only the left slot changes. */
    method SetLeft(value: Option<D>)
      requires Valid()
      modifies this
      ensures Valid()
      ensures Left() == value
      ensures Top() == old(Top()) && Right() == old(Right()) && Bottom() == old(Bottom())
      ensures compoundDrawablesRelative == old(compoundDrawablesRelative)
    {
      SetOptionalCompoundDrawables(Given(value), Keep, Keep, Keep);
    }

    /** `compoundDrawableTop = value`: only the top slot changes. */
    method SetTop(value: Option<D>)
      requires Valid()
      modifies this
      ensures Valid()
      ensures Top() == value
      ensures Left() == old(Left()) && Right() == old(Right()) && Bottom() == old(Bottom())
      ensures compoundDrawablesRelative == old(compoundDrawablesRelative)
    {
      SetOptionalCompoundDrawables(Keep, Given(value), Keep, Keep);
    }

    /** `compoundDrawableRight = value`: only the right slot changes. */
    method SetRight(value: Option<D>)
      requires Valid()
      modifies this
      ensures Valid()
      ensures Right() == value
      ensures Left() == old(Left()) && Top() == old(Top()) && Bottom() == old(Bottom())
      ensures compoundDrawablesRelative == old(compoundDrawablesRelative)
    {
      SetOptionalCompoundDrawables(Keep, Keep, Given(value), Keep);
    }

    /** `compoundDrawableBottom = value`: only the bottom slot changes. */
    method SetBottom(value: Option<D>)
      requires Valid()
      modifies this
      ensures Valid()
      ensures Bottom() == value
      ensures Left() == old(Left()) && Top() == old(Top()) && Right() == old(Right())
      ensures compoundDrawablesRelative == old(compoundDrawablesRelative)
    {
      SetOptionalCompoundDrawables(Keep, Keep, Keep, Given(value));
    }

    /** `compoundDrawableStart = value`: the start slot takes the value and the
        end slot keeps its drawable. The relative top and bottom are rewritten
        from the absolute array, since those are the defaults of
        `setOptionalRelativeCompoundDrawables`. */
    method SetStart(value: Option<D>)
      requires Valid()
      modifies this
      ensures Valid()
      ensures compoundDrawablesRelative == [value, old(Top()), old(End()), old(Bottom())]
      ensures Start() == value && End() == old(End())
      ensures compoundDrawables == old(compoundDrawables)
    {
      SetOptionalRelativeCompoundDrawables(Given(value), Keep, Keep, Keep);
    }

    /** `compoundDrawableEnd = value`: the end slot takes the value and the
        start slot keeps its drawable; the relative top and bottom are
        rewritten from the absolute array, as for the start slot. */
    method SetEnd(value: Option<D>)
      requires Valid()
      modifies this
      ensures Valid()
      ensures compoundDrawablesRelative == [old(Start()), old(Top()), value, old(Bottom())]
      ensures End() == value && Start() == old(Start())
      ensures compoundDrawables == old(compoundDrawables)
    {
      SetOptionalRelativeCompoundDrawables(Keep, Keep, Given(value), Keep);
    }
  }
}
