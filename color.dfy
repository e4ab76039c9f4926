/** Packed ARGB colours: a colour is a 32-bit word with alpha in the top byte,
    then red, green and blue. The channel accessors and `Argb` are the
    platform's `Color.alpha/red/green/blue/argb`. Each function that builds a
    colour proves its contract through a small lemma about the bits. */
module Colors {

  type Color = bv32

  /** Color.alpha: the top byte. */
  function Alpha(c: Color): (a: bv32)
    ensures a <= 0xFF
  {
    c >> 24
  }

  /** Color.red */
  function Red(c: Color): (r: bv32)
    ensures r <= 0xFF
  {
    (c >> 16) & 0xFF
  }

  /** Color.green */
  function Green(c: Color): (g: bv32)
    ensures g <= 0xFF
  {
    (c >> 8) & 0xFF
  }

  /** Color.blue */
  function Blue(c: Color): (b: bv32)
    ensures b <= 0xFF
  {
    c & 0xFF
  }

  /** The bits below the alpha byte: red, green and blue together. */
  function Rgb(c: Color): bv32 {
    c & 0x00FF_FFFF
  }

  /** Color.argb: packs four channel values. */
  function Argb(a: bv32, r: bv32, g: bv32, b: bv32): Color {
    (a << 24) | (r << 16) | (g << 8) | b
  }

  /** Packing channels that each fit in a byte and reading them back gives them
      unchanged. */
  lemma ArgbChannels(a: bv32, r: bv32, g: bv32, b: bv32)
    requires a <= 0xFF && r <= 0xFF && g <= 0xFF && b <= 0xFF
    ensures var c := Argb(a, r, g, b);
      Alpha(c) == a && Red(c) == r && Green(c) == g && Blue(c) == b
  {
  }

  /** A colour is determined by its four channels. */
  lemma ChannelsDetermineColor(c: Color, d: Color)
    requires Alpha(c) == Alpha(d) && Red(c) == Red(d) && Green(c) == Green(d) && Blue(c) == Blue(d)
    ensures c == d
  {
  }

  /** A colour is determined by its alpha and its low 24 bits. */
  lemma AlphaAndRgbDetermineColor(c: Color, d: Color)
    requires Alpha(c) == Alpha(d) && Rgb(c) == Rgb(d)
    ensures c == d
  {
  }

  lemma OpaqueBits(c: Color)
    ensures Alpha(0xFF00_0000 | c) == 0xFF
    ensures Rgb(0xFF00_0000 | c) == Rgb(c)
  {
  }

  /** `stripAlpha`: the colour made fully opaque, its colour channels kept. */
  function StripAlpha(c: Color): (r: Color)
    ensures Alpha(r) == 0xFF
    ensures Rgb(r) == Rgb(c)
  {
    OpaqueBits(c);
    0xFF00_0000 | c
  }

  /** Stripping alpha twice is stripping it once. */
  lemma StripAlphaIdempotent(c: Color)
    ensures StripAlpha(StripAlpha(c)) == StripAlpha(c)
  {
    var once := StripAlpha(c);
    var twice := StripAlpha(once);
    AlphaAndRgbDetermineColor(twice, once);
  }

  /** `invert`: each colour channel complemented against 255, alpha kept. */
  function Invert(c: Color): (r: Color)
    ensures Alpha(r) == Alpha(c)
    ensures Red(r) == 255 - Red(c) && Green(r) == 255 - Green(c) && Blue(r) == 255 - Blue(c)
  {
    ArgbChannels(Alpha(c), 255 - Red(c), 255 - Green(c), 255 - Blue(c));
    Argb(Alpha(c), 255 - Red(c), 255 - Green(c), 255 - Blue(c))
  }

  /** Inverting twice gives the colour back. */
  lemma InvertInvolution(c: Color)
    ensures Invert(Invert(c)) == c
  {
    ChannelsDetermineColor(Invert(Invert(c)), c);
  }

  /** `min(255, max(0, x))` on a 32-bit `Int`, read as two's complement: a word
      with the sign bit set is negative. */
  function ClampToByte(x: bv32): (v: bv32)
    ensures v <= 0xFF
    ensures x & 0x8000_0000 != 0 ==> v == 0
    ensures x & 0x8000_0000 == 0 && x <= 0xFF ==> v == x
    ensures x & 0x8000_0000 == 0 && x > 0xFF ==> v == 0xFF
  {
    if x & 0x8000_0000 != 0 then 0 else if x > 0xFF then 0xFF else x
  }

  /** The alpha byte `a` added to the low 24 bits of `c`: the addition never
      carries, so it is the same as `or`, and the channels come out as meant. */
  lemma AlphaOverRgb(a: bv32, c: Color)
    requires a <= 0xFF
    ensures (a << 24) + (0x00FF_FFFF & c) == (a << 24) | (0x00FF_FFFF & c)
    ensures Alpha((a << 24) + (0x00FF_FFFF & c)) == a
    ensures Rgb((a << 24) + (0x00FF_FFFF & c)) == Rgb(c)
  {
  }

  /** `withAlpha(alpha)`, where `scaled` is the `Int` `(alpha * 255).toInt()`:
      the clamped value becomes the alpha byte and the rest of the colour is
      kept. */
  function WithAlpha(c: Color, scaled: bv32): (r: Color)
    ensures Alpha(r) == ClampToByte(scaled)
    ensures Rgb(r) == Rgb(c)
  {
    var alpha := ClampToByte(scaled);
    AlphaOverRgb(alpha, c);
    (alpha << 24) + (0x00FF_FFFF & c)
  }

  /** Setting the alpha twice keeps only the second. */
  lemma WithAlphaOverrides(c: Color, first: bv32, second: bv32)
    ensures WithAlpha(WithAlpha(c, first), second) == WithAlpha(c, second)
  {
    var lhs := WithAlpha(WithAlpha(c, first), second);
    var rhs := WithAlpha(c, second);
    AlphaAndRgbDetermineColor(lhs, rhs);
  }

  /** `shift(by)`: a factor of `1f` returns the colour itself; otherwise the
      colour's alpha is put above the low 24 bits of `scaleValue(c, factor)`,
      which stands for the HSV round trip (`colorToHSV`, value times the
      factor, `HSVToColor`). */
  function Shift(c: Color, factor: real, scaleValue: (Color, real) -> Color): (r: Color)
    ensures factor == 1.0 ==> r == c
    ensures factor != 1.0 ==> Alpha(r) == Alpha(c) && Rgb(r) == Rgb(scaleValue(c, factor))
  {
    if factor == 1.0 then c
    else
      var alpha := Alpha(c);
      var hsv := scaleValue(c, factor);
      AlphaOverRgb(alpha, hsv);
      (alpha << 24) + (0x00FF_FFFF & hsv)
  }

  /** `darken()`: `shift(0.9f)`. */
  function Darken(c: Color, scaleValue: (Color, real) -> Color): (r: Color)
    ensures Alpha(r) == Alpha(c) && Rgb(r) == Rgb(scaleValue(c, 0.9))
  {
    Shift(c, 0.9, scaleValue)
  }

  /** `lighten()`: `shift(1.1f)`. */
  function Lighten(c: Color, scaleValue: (Color, real) -> Color): (r: Color)
    ensures Alpha(r) == Alpha(c) && Rgb(r) == Rgb(scaleValue(c, 1.1))
  {
    Shift(c, 1.1, scaleValue)
  }

  /** Shifting by a factor other than one is `withAlpha` of the scaled colour,
      at the original alpha. */
  lemma ShiftKeepsAlpha(c: Color, factor: real, scaleValue: (Color, real) -> Color)
    requires factor != 1.0
    ensures Shift(c, factor, scaleValue) == WithAlpha(scaleValue(c, factor), Alpha(c))
  {
    var lhs := Shift(c, factor, scaleValue);
    var rhs := WithAlpha(scaleValue(c, factor), Alpha(c));
    assert ClampToByte(Alpha(c)) == Alpha(c);
    AlphaAndRgbDetermineColor(lhs, rhs);
  }

  /** The weighted channel sum of the light test, in thousandths:
      `299 R + 587 G + 114 B`. */
  function Weighted(c: Color): int {
    299 * (Red(c) as int) + 587 * (Green(c) as int) + 114 * (Blue(c) as int)
  }

  /** `isLight()`: the darkness `1 - (0.299 R + 0.587 G + 0.114 B) / 255` is
      below 0.4, computed here over exact reals. In whole numbers: the
      weighted sum is above 0.6 * 255 * 1000, and alpha plays no part. */
  predicate IsLight(c: Color)
    ensures IsLight(c) <==> Weighted(c) > 153000
  {
    var r, g, b := Red(c) as int, Green(c) as int, Blue(c) as int;
    assert Weighted(c) == 299 * r + 587 * g + 114 * b;
    var luminance := 0.299 * (r as real) + 0.587 * (g as real) + 0.114 * (b as real);
    1.0 - luminance / 255.0 < 0.4
  }

  /** `isDark()`: `!isLight()`, so a colour is dark exactly when its weighted
      sum is at most 153000. */
  predicate IsDark(c: Color)
    ensures IsDark(c) <==> Weighted(c) <= 153000
  {
    !IsLight(c)
  }

  /** Opaque white is light and opaque black is dark. */
  lemma WhiteIsLightBlackIsDark()
    ensures IsLight(0xFFFF_FFFF)
    ensures IsDark(0xFF00_0000)
  {
  }
}
