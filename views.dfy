/** The view helpers: visibility, padding, margins and size. A view is an
    object whose visibility and padding the helpers assign; its layout params
    are a second object, shared by reference, whose margins and size the
    helpers assign in place. */
module Views {
  import opened Wrappers

  // View.VISIBLE, View.INVISIBLE, View.GONE
  const VISIBLE := 0
  const INVISIBLE := 4
  const GONE := 8

  /** Thrown by `layoutParams as ViewGroup.MarginLayoutParams?` when the params
      are present but not margin params. */
  datatype CastError = ClassCastException

  /** The six margins of margin params. */
  datatype Margins = Margins(left: int, top: int, right: int, bottom: int, start: int, end: int)

  /** A view's layout params: a requested size and, for margin params, margins.
      Start and end margins are kept as stored; their resolution against left
      and right by layout direction is the platform's. */
  class LayoutParams {
    const isMarginParams: bool
    var width: int
    var height: int
    var margins: Margins

    constructor(isMarginParams: bool, width: int, height: int, margins: Margins)
      ensures this.isMarginParams == isMarginParams
      ensures this.width == width && this.height == height && this.margins == margins
    {
      this.isMarginParams := isMarginParams;
      this.width := width;
      this.height := height;
      this.margins := margins;
    }
  }

  /** The stored values of a view that the helpers assign. */
  datatype ViewState = ViewState(
    visibility: int,
    paddingLeft: int, paddingTop: int, paddingRight: int, paddingBottom: int,
    layoutParams: LayoutParams?)

  class View {
    var visibility: int
    var paddingLeft: int
    var paddingTop: int
    var paddingRight: int
    var paddingBottom: int
    var layoutParams: LayoutParams?
    /** Whether the resolved layout direction is right to left. */
    const rtl: bool
    /** `getWidth()` and `getHeight()`: the size of the last layout pass. */
    const measuredWidth: int
    const measuredHeight: int

    constructor(state: ViewState, rtl: bool, measuredWidth: int, measuredHeight: int)
      ensures State() == state
      ensures this.rtl == rtl && this.measuredWidth == measuredWidth && this.measuredHeight == measuredHeight
    {
      visibility := state.visibility;
      paddingLeft := state.paddingLeft;
      paddingTop := state.paddingTop;
      paddingRight := state.paddingRight;
      paddingBottom := state.paddingBottom;
      layoutParams := state.layoutParams;
      this.rtl := rtl;
      this.measuredWidth := measuredWidth;
      this.measuredHeight := measuredHeight;
    }

    function State(): ViewState
      reads this
    {
      ViewState(visibility, paddingLeft, paddingTop, paddingRight, paddingBottom, layoutParams)
    }

    // ---- visibility ----

    /** `setVisible()` */
    method SetVisible()
      modifies this
      ensures State() == old(State()).(visibility := VISIBLE)
    {
      visibility := VISIBLE;
    }

    /** `setInvisible()` */
    method SetInvisible()
      modifies this
      ensures State() == old(State()).(visibility := INVISIBLE)
    {
      visibility := INVISIBLE;
    }

    /** `setGone()` */
    method SetGone()
      modifies this
      ensures State() == old(State()).(visibility := GONE)
    {
      visibility := GONE;
    }

    /** `setVisible(visible)`: visible or gone, never invisible. */
    method SetVisibleIf(visible: bool)
      modifies this
      ensures State() == old(State()).(visibility := if visible then VISIBLE else GONE)
      ensures IsVisible() <==> visible
      ensures IsGone() <==> !visible
      ensures !IsInvisible()
    {
      visibility := if visible then VISIBLE else GONE;
    }

    /** `setVisible(predicate)`: `setVisible(predicate())`. */
    method SetVisibleWhen(condition: () -> bool)
      modifies this
      ensures State() == old(State()).(visibility := if condition() then VISIBLE else GONE)
    {
      SetVisibleIf(condition());
    }

    /** `isVisible()` */
    predicate IsVisible()
      reads this
      ensures IsVisible() ==> !IsInvisible() && !IsGone()
    {
      visibility == VISIBLE
    }

    /** `isInvisible()` */
    predicate IsInvisible()
      reads this
      ensures IsInvisible() ==> !IsGone()
    {
      visibility == INVISIBLE
    }

    /** `isGone()` */
    predicate IsGone()
      reads this
      ensures IsGone() ==> visibility != VISIBLE && visibility != INVISIBLE
    {
      visibility == GONE
    }

    // ---- padding ----

    /** The platform's `setPadding(left, top, right, bottom)`. */
    method SetPadding(left: int, top: int, right: int, bottom: int)
      modifies this
      ensures State() == old(State()).(paddingLeft := left, paddingTop := top, paddingRight := right, paddingBottom := bottom)
    {
      paddingLeft, paddingTop, paddingRight, paddingBottom := left, top, right, bottom;
    }

    /** `getPaddingStart()`: the left padding, or the right one right to left. */
    function PaddingStart(): int
      reads this
    {
      if rtl then paddingRight else paddingLeft
    }

    /** `getPaddingEnd()` */
    function PaddingEnd(): int
      reads this
    {
      if rtl then paddingLeft else paddingRight
    }

    /** The platform's `setPaddingRelative(start, top, end, bottom)`, resolved
        against the layout direction. */
    method SetPaddingRelative(start: int, top: int, end: int, bottom: int)
      modifies this
      ensures PaddingStart() == start && PaddingEnd() == end
      ensures State() == old(State()).(
        paddingLeft := if rtl then end else start,
        paddingTop := top,
        paddingRight := if rtl then start else end,
        paddingBottom := bottom)
    {
      if rtl {
        SetPadding(end, top, start, bottom);
      } else {
        SetPadding(start, top, end, bottom);
      }
    }

    /** `setPaddingLeft(padding)` */
    method SetPaddingLeft(padding: int)
      modifies this
      ensures State() == old(State()).(paddingLeft := padding)
    {
      SetPadding(padding, paddingTop, paddingRight, paddingBottom);
    }

    /** `setPaddingRight(padding)` */
    method SetPaddingRight(padding: int)
      modifies this
      ensures State() == old(State()).(paddingRight := padding)
    {
      SetPadding(paddingLeft, paddingTop, padding, paddingBottom);
    }

    /** `setPaddingTop(padding)` */
    method SetPaddingTop(padding: int)
      modifies this
      ensures State() == old(State()).(paddingTop := padding)
    {
      SetPadding(paddingLeft, padding, paddingRight, paddingBottom);
    }

    /** `setPaddingBottom(padding)` */
    method SetPaddingBottom(padding: int)
      modifies this
      ensures State() == old(State()).(paddingBottom := padding)
    {
      SetPadding(paddingLeft, paddingTop, paddingRight, padding);
    }

    /** `setPaddingStart(padding)`: only the start side changes. */
    method SetPaddingStart(padding: int)
      modifies this
      ensures PaddingStart() == padding && PaddingEnd() == old(PaddingEnd())
      ensures paddingTop == old(paddingTop) && paddingBottom == old(paddingBottom)
      ensures visibility == old(visibility) && layoutParams == old(layoutParams)
    {
      SetPaddingRelative(padding, paddingTop, PaddingEnd(), paddingBottom);
    }

    /** `setPaddingEnd(padding)`: only the end side changes. */
    method SetPaddingEnd(padding: int)
      modifies this
      ensures PaddingEnd() == padding && PaddingStart() == old(PaddingStart())
      ensures paddingTop == old(paddingTop) && paddingBottom == old(paddingBottom)
      ensures visibility == old(visibility) && layoutParams == old(layoutParams)
    {
      SetPaddingRelative(PaddingStart(), paddingTop, padding, paddingBottom);
    }

    /** `setAllPadding(padding)` */
    method SetAllPadding(padding: int)
      modifies this
      ensures State() == old(State()).(paddingLeft := padding, paddingTop := padding, paddingRight := padding, paddingBottom := padding)
    {
      SetPadding(padding, padding, padding, padding);
    }

    /** `setOptionalPadding(left, top, right, bottom)`: an omitted side keeps its
        current padding. */
    method SetOptionalPadding(left: Arg<int>, top: Arg<int>, right: Arg<int>, bottom: Arg<int>)
      modifies this
      ensures State() == old(State()).(
        paddingLeft := left.Or(old(paddingLeft)),
        paddingTop := top.Or(old(paddingTop)),
        paddingRight := right.Or(old(paddingRight)),
        paddingBottom := bottom.Or(old(paddingBottom)))
      ensures left.Keep? && top.Keep? && right.Keep? && bottom.Keep? ==> State() == old(State())
    {
      SetPadding(left.Or(paddingLeft), top.Or(paddingTop), right.Or(paddingRight), bottom.Or(paddingBottom));
    }

    /** `setOptionalRelativePadding(start, top, end, bottom)` */
    method SetOptionalRelativePadding(start: Arg<int>, top: Arg<int>, end: Arg<int>, bottom: Arg<int>)
      modifies this
      ensures PaddingStart() == start.Or(old(PaddingStart())) && PaddingEnd() == end.Or(old(PaddingEnd()))
      ensures paddingTop == top.Or(old(paddingTop)) && paddingBottom == bottom.Or(old(paddingBottom))
      ensures visibility == old(visibility) && layoutParams == old(layoutParams)
      ensures start.Keep? && top.Keep? && end.Keep? && bottom.Keep? ==> State() == old(State())
    {
      SetPaddingRelative(start.Or(PaddingStart()), top.Or(paddingTop), end.Or(PaddingEnd()), bottom.Or(paddingBottom));
    }

    // ---- margins ----

    /** `layoutParams as ViewGroup.MarginLayoutParams?`: null stays null, margin
        params pass, any other params make the cast throw. */
    function MarginParams(): (r: Result<LayoutParams?, CastError>)
      reads this
      ensures r.Success? ==> r.value == layoutParams
      ensures r.Success? <==> layoutParams == null || layoutParams.isMarginParams
    {
      if layoutParams == null || layoutParams.isMarginParams then Success(layoutParams)
      else Failure(ClassCastException)
    }

    /** The getters `marginLeft` … `marginEnd`: the chosen margin of the margin
        params, 0 without params, and the cast's exception for other params. */
    function Margin(side: Margins -> int): (r: Result<int, CastError>)
      reads this, layoutParams
      ensures layoutParams == null ==> r == Success(0)
      ensures layoutParams != null && layoutParams.isMarginParams ==> r == Success(side(layoutParams.margins))
      ensures layoutParams != null && !layoutParams.isMarginParams ==> r == Failure(ClassCastException)
    {
      match MarginParams()
      case Failure(e) => Failure(e)
      case Success(lp) => if lp == null then Success(0) else Success(side(lp.margins))
    }

    /** The setters `marginLeft = value` … `marginEnd = value`: `update` writes
        the margin into margin params; without params nothing happens, and
        other params make the cast throw before anything is written. */
    method SetMargin(update: Margins -> Margins) returns (outcome: Outcome<CastError>)
      modifies layoutParams
      ensures unchanged(this)
      ensures outcome.Pass? <==> layoutParams == null || layoutParams.isMarginParams
      ensures layoutParams != null && layoutParams.isMarginParams ==>
        layoutParams.margins == update(old(layoutParams.margins))
      ensures layoutParams != null ==>
        layoutParams.width == old(layoutParams.width) && layoutParams.height == old(layoutParams.height)
      ensures layoutParams != null && !layoutParams.isMarginParams ==> unchanged(layoutParams)
    {
      var cast := MarginParams();
      match cast
      case Failure(e) =>
        outcome := Fail(e);
      case Success(lp) =>
        if lp != null {
          lp.margins := update(lp.margins);
        }
        outcome := Pass;
    }

    /** `setOptionalMargin(left, top, right, bottom)`: the defaults read the
        current margins (and throw for params that are not margin params), then
        the four setters run in turn. */
    method SetOptionalMargin(left: Arg<int>, top: Arg<int>, right: Arg<int>, bottom: Arg<int>) returns (outcome: Outcome<CastError>)
      modifies layoutParams
      ensures unchanged(this)
      ensures layoutParams == null ==> outcome.Pass?
      ensures layoutParams != null && !layoutParams.isMarginParams ==>
        outcome == Fail(ClassCastException) && unchanged(layoutParams)
      ensures layoutParams != null && layoutParams.isMarginParams ==>
        outcome.Pass? &&
        layoutParams.margins == old(layoutParams.margins).(
          left := left.Or(old(layoutParams.margins.left)),
          top := top.Or(old(layoutParams.margins.top)),
          right := right.Or(old(layoutParams.margins.right)),
          bottom := bottom.Or(old(layoutParams.margins.bottom))) &&
        layoutParams.width == old(layoutParams.width) && layoutParams.height == old(layoutParams.height)
    {
      var currentLeft := Margin((m: Margins) => m.left);
      var currentTop := Margin((m: Margins) => m.top);
      var currentRight := Margin((m: Margins) => m.right);
      var currentBottom := Margin((m: Margins) => m.bottom);
      if currentLeft.Failure? {
        return Fail(currentLeft.error);
      }
      var l := left.Or(currentLeft.value);
      var t := top.Or(currentTop.value);
      var r := right.Or(currentRight.value);
      var b := bottom.Or(currentBottom.value);
      outcome := SetMargin((m: Margins) => m.(left := l));
      outcome := SetMargin((m: Margins) => m.(top := t));
      outcome := SetMargin((m: Margins) => m.(right := r));
      outcome := SetMargin((m: Margins) => m.(bottom := b));
    }

    /** `setOptionalRelativeMargin(start, top, end, bottom)` */
    method SetOptionalRelativeMargin(start: Arg<int>, top: Arg<int>, end: Arg<int>, bottom: Arg<int>) returns (outcome: Outcome<CastError>)
      modifies layoutParams
      ensures unchanged(this)
      ensures layoutParams == null ==> outcome.Pass?
      ensures layoutParams != null && !layoutParams.isMarginParams ==>
        outcome == Fail(ClassCastException) && unchanged(layoutParams)
      ensures layoutParams != null && layoutParams.isMarginParams ==>
        outcome.Pass? &&
        layoutParams.margins == old(layoutParams.margins).(
          start := start.Or(old(layoutParams.margins.start)),
          top := top.Or(old(layoutParams.margins.top)),
          end := end.Or(old(layoutParams.margins.end)),
          bottom := bottom.Or(old(layoutParams.margins.bottom))) &&
        layoutParams.width == old(layoutParams.width) && layoutParams.height == old(layoutParams.height)
    {
      var currentStart := Margin((m: Margins) => m.start);
      var currentTop := Margin((m: Margins) => m.top);
      var currentEnd := Margin((m: Margins) => m.end);
      var currentBottom := Margin((m: Margins) => m.bottom);
      if currentStart.Failure? {
        return Fail(currentStart.error);
      }
      var s := start.Or(currentStart.value);
      var t := top.Or(currentTop.value);
      var e := end.Or(currentEnd.value);
      var b := bottom.Or(currentBottom.value);
      outcome := SetMargin((m: Margins) => m.(start := s));
      outcome := SetMargin((m: Margins) => m.(top := t));
      outcome := SetMargin((m: Margins) => m.(end := e));
      outcome := SetMargin((m: Margins) => m.(bottom := b));
    }

    /** `setAllMargin(int)`: left, top, right and bottom all become `int`. */
    method SetAllMargin(value: int) returns (outcome: Outcome<CastError>)
      modifies layoutParams
      ensures unchanged(this)
      ensures outcome.Pass? <==> layoutParams == null || layoutParams.isMarginParams
      ensures layoutParams != null && layoutParams.isMarginParams ==>
        layoutParams.margins == old(layoutParams.margins).(left := value, top := value, right := value, bottom := value)
      ensures layoutParams != null && layoutParams.isMarginParams ==>
        layoutParams.width == old(layoutParams.width) && layoutParams.height == old(layoutParams.height)
      ensures layoutParams != null && !layoutParams.isMarginParams ==> unchanged(layoutParams)
    {
      outcome := SetOptionalMargin(Given(value), Given(value), Given(value), Given(value));
    }

    /** `setAllRelativeMargin(int)`: start, top, end and bottom all become `int`. */
    method SetAllRelativeMargin(value: int) returns (outcome: Outcome<CastError>)
      modifies layoutParams
      ensures unchanged(this)
      ensures outcome.Pass? <==> layoutParams == null || layoutParams.isMarginParams
      ensures layoutParams != null && layoutParams.isMarginParams ==>
        layoutParams.margins == old(layoutParams.margins).(start := value, top := value, end := value, bottom := value)
      ensures layoutParams != null && layoutParams.isMarginParams ==>
        layoutParams.width == old(layoutParams.width) && layoutParams.height == old(layoutParams.height)
      ensures layoutParams != null && !layoutParams.isMarginParams ==> unchanged(layoutParams)
    {
      outcome := SetOptionalRelativeMargin(Given(value), Given(value), Given(value), Given(value));
    }

    // ---- size ----

    /** `resize(width, height)`: with layout params, their size becomes the given
        one, an omitted side taking the view's current measured size; without
        layout params nothing happens. */
    method Resize(width: Arg<int>, height: Arg<int>)
      modifies this, layoutParams
      ensures State() == old(State())
      ensures layoutParams != null ==>
        layoutParams.width == width.Or(measuredWidth) && layoutParams.height == height.Or(measuredHeight)
      ensures layoutParams != null ==> layoutParams.margins == old(layoutParams.margins)
    {
      var lp := layoutParams;
      if lp != null {
        lp.width := width.Or(measuredWidth);
        lp.height := height.Or(measuredHeight);
        // `layoutParams = lp` stores the same object back, asking for a new layout.
        layoutParams := lp;
      }
    }

    /** `setHeight(height)`: `resize(height = height)`, which also writes the
        measured width into the layout width. */
    method SetHeight(height: int)
      modifies this, layoutParams
      ensures State() == old(State())
      ensures layoutParams != null ==> layoutParams.width == measuredWidth && layoutParams.height == height
      ensures layoutParams != null ==> layoutParams.margins == old(layoutParams.margins)
    {
      Resize(Keep, Given(height));
    }

    /** `setWidth(width)`: `resize(width = width)`, which also writes the
        measured height into the layout height. */
    method SetWidth(width: int)
      modifies this, layoutParams
      ensures State() == old(State())
      ensures layoutParams != null ==> layoutParams.width == width && layoutParams.height == measuredHeight
      ensures layoutParams != null ==> layoutParams.margins == old(layoutParams.margins)
    {
      Resize(Given(width), Keep);
    }
  }
}
