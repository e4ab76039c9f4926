/** `toBitmap()` and `tint()` on a drawable. A drawable is an object with
    bounds, a colour filter and a mutated flag that these helpers set; a
    bitmap drawable may also hold a bitmap. Drawing onto the canvas is the
    platform's and is recorded only as the bitmap drawn into. */
module Drawables {
  import opened Wrappers

  class Bitmap {
    const width: int
    const height: int

    /** `Bitmap.createBitmap(width, height, config)` */
    constructor(width: int, height: int)
      ensures this.width == width && this.height == height
    {
      this.width := width;
      this.height := height;
    }
  }

  datatype Bounds = Bounds(left: int, top: int, right: int, bottom: int)

  /** The blending modes of `PorterDuff.Mode`. */
  datatype PorterDuffMode =
    | Clear | Src | Dst | SrcOver | DstOver | SrcIn | DstIn | SrcOut | DstOut
    | SrcAtop | DstAtop | Xor | Darken | Lighten | Multiply | Screen | Add | Overlay

  datatype ColorFilter = ColorFilter(color: int, mode: PorterDuffMode)

  /** The size of the bitmap `toBitmap()` creates: 1 x 1 when either intrinsic
      side is not positive, the intrinsic size otherwise. */
  function NewBitmapSize(intrinsicWidth: int, intrinsicHeight: int): (size: (int, int))
    ensures size.0 >= 1 && size.1 >= 1
    ensures intrinsicWidth > 0 && intrinsicHeight > 0 ==> size == (intrinsicWidth, intrinsicHeight)
    ensures intrinsicWidth <= 0 || intrinsicHeight <= 0 ==> size == (1, 1)
  {
    if intrinsicWidth <= 0 || intrinsicHeight <= 0 then (1, 1)
    else (intrinsicWidth, intrinsicHeight)
  }

  class Drawable {
    /** Whether this is a `BitmapDrawable`. */
    const isBitmapDrawable: bool
    /** A bitmap drawable's bitmap; always null for other drawables. */
    var bitmap: Bitmap?
    const intrinsicWidth: int
    const intrinsicHeight: int
    var bounds: Bounds
    var colorFilter: Option<ColorFilter>
    /** Whether `mutate()` has been called. */
    var mutated: bool
    /** The bitmap whose canvas this drawable last drew onto. */
    var drawnInto: Bitmap?

    constructor(isBitmapDrawable: bool, bitmap: Bitmap?, intrinsicWidth: int, intrinsicHeight: int)
      ensures this.isBitmapDrawable == isBitmapDrawable && this.bitmap == bitmap
      ensures this.intrinsicWidth == intrinsicWidth && this.intrinsicHeight == intrinsicHeight
      ensures bounds == Bounds(0, 0, 0, 0) && colorFilter == None && !mutated && drawnInto == null
    {
      this.isBitmapDrawable := isBitmapDrawable;
      this.bitmap := bitmap;
      this.intrinsicWidth := intrinsicWidth;
      this.intrinsicHeight := intrinsicHeight;
      bounds := Bounds(0, 0, 0, 0);
      colorFilter := None;
      mutated := false;
      drawnInto := null;
    }

    /** `toBitmap()`: a bitmap drawable with a bitmap hands that bitmap back and
        changes nothing. Any other drawable gets a new bitmap of
        `NewBitmapSize`, has its bounds set to the whole bitmap, and is drawn
        onto it. */
    method ToBitmap() returns (result: Bitmap)
      modifies this
      ensures isBitmapDrawable && old(bitmap) != null ==> result == old(bitmap) && unchanged(this)
      ensures !(isBitmapDrawable && old(bitmap) != null) ==>
        && fresh(result)
        && (result.width, result.height) == NewBitmapSize(intrinsicWidth, intrinsicHeight)
        && bounds == Bounds(0, 0, result.width, result.height)
        && drawnInto == result
        && bitmap == old(bitmap) && colorFilter == old(colorFilter) && mutated == old(mutated)
    {
      if isBitmapDrawable {
        if bitmap != null {
          return bitmap;
        }
      }
      var size := NewBitmapSize(intrinsicWidth, intrinsicHeight);
      result := new Bitmap(size.0, size.1);
      // `Canvas(bitmap)` has the bitmap's size.
      bounds := Bounds(0, 0, result.width, result.height);
      drawnInto := result;
    }

    /** `tint(color, mode, mutate)`: the colour filter is always set, and
        `mutate()` is called only when asked for; the defaults are `SRC_IN` and
        `true`. */
    method Tint(color: int, mode: Arg<PorterDuffMode>, mutate: Arg<bool>)
      modifies this
      ensures colorFilter == Some(ColorFilter(color, mode.Or(SrcIn)))
      ensures mutated == (old(mutated) || mutate.Or(true))
      ensures bitmap == old(bitmap) && bounds == old(bounds) && drawnInto == old(drawnInto)
    {
      colorFilter := Some(ColorFilter(color, mode.Or(SrcIn)));
      if mutate.Or(true) {
        mutated := true;
      }
    }
  }
}
