/** Status-bar, navigation-bar and system-bar styling of an activity's window.

    The window holds four 32-bit words the helpers read and write: the layout
    flags of `window.attributes`, the decor view's `systemUiVisibility`, and the
    two bar colours. Each helper sets a group of bits (`word or mask`) or clears
    it (`word and mask.inv()`), assigns a colour, or, in one case, overwrites the
    visibility word. The pure functions on `WindowState` specify the helpers;
    the `Window` class performs them in place as the extension functions do. */
module SystemBars {
  import opened Build

  // WindowManager.LayoutParams flags (the `flags` word).
  const FLAG_LAYOUT_NO_LIMITS: bv32 := 0x0000_0200
  const FLAG_FULLSCREEN: bv32 := 0x0000_0400
  const FLAG_TRANSLUCENT_STATUS: bv32 := 0x0400_0000
  const FLAG_TRANSLUCENT_NAVIGATION: bv32 := 0x0800_0000
  const FLAG_DRAWS_SYSTEM_BAR_BACKGROUNDS: bv32 := 0x8000_0000

  // View.SYSTEM_UI_FLAG_* (the `systemUiVisibility` word).
  const SYSTEM_UI_FLAG_HIDE_NAVIGATION: bv32 := 0x0000_0002
  const SYSTEM_UI_FLAG_LIGHT_NAVIGATION_BAR: bv32 := 0x0000_0010
  const SYSTEM_UI_FLAG_LAYOUT_STABLE: bv32 := 0x0000_0100
  const SYSTEM_UI_FLAG_LAYOUT_FULLSCREEN: bv32 := 0x0000_0400
  const SYSTEM_UI_FLAG_IMMERSIVE: bv32 := 0x0000_0800
  const SYSTEM_UI_FLAG_IMMERSIVE_STICKY: bv32 := 0x0000_1000
  const SYSTEM_UI_FLAG_LIGHT_STATUS_BAR: bv32 := 0x0000_2000

  /** Color.TRANSPARENT */
  const TRANSPARENT: bv32 := 0

  /** The pair `setDrawUnderStatusBar` toggles together. */
  const DRAW_UNDER_STATUS_BAR: bv32 := SYSTEM_UI_FLAG_LAYOUT_STABLE | SYSTEM_UI_FLAG_LAYOUT_FULLSCREEN

  /** The three bits `setNavigationBarHidden` writes. */
  const HIDDEN_NAVIGATION: bv32 :=
    SYSTEM_UI_FLAG_HIDE_NAVIGATION | SYSTEM_UI_FLAG_IMMERSIVE | SYSTEM_UI_FLAG_IMMERSIVE_STICKY

  predicate SingleBit(m: bv32) {
    m != 0 && m & (m - 1) == 0
  }

  /** Every flag the helpers toggle is one bit, and no two flags of the same
      word share a bit. */
  lemma FlagsAreDistinctBits()
    ensures SingleBit(FLAG_LAYOUT_NO_LIMITS) && SingleBit(FLAG_FULLSCREEN)
    ensures SingleBit(FLAG_TRANSLUCENT_STATUS) && SingleBit(FLAG_TRANSLUCENT_NAVIGATION)
    ensures SingleBit(FLAG_DRAWS_SYSTEM_BAR_BACKGROUNDS)
    ensures SingleBit(SYSTEM_UI_FLAG_HIDE_NAVIGATION) && SingleBit(SYSTEM_UI_FLAG_LIGHT_NAVIGATION_BAR)
    ensures SingleBit(SYSTEM_UI_FLAG_LAYOUT_STABLE) && SingleBit(SYSTEM_UI_FLAG_LAYOUT_FULLSCREEN)
    ensures SingleBit(SYSTEM_UI_FLAG_IMMERSIVE) && SingleBit(SYSTEM_UI_FLAG_IMMERSIVE_STICKY)
    ensures SingleBit(SYSTEM_UI_FLAG_LIGHT_STATUS_BAR)
    ensures FLAG_LAYOUT_NO_LIMITS & FLAG_FULLSCREEN == 0
    ensures (FLAG_LAYOUT_NO_LIMITS | FLAG_FULLSCREEN) & (FLAG_TRANSLUCENT_STATUS | FLAG_TRANSLUCENT_NAVIGATION | FLAG_DRAWS_SYSTEM_BAR_BACKGROUNDS) == 0
    ensures FLAG_TRANSLUCENT_STATUS & FLAG_TRANSLUCENT_NAVIGATION == 0
    ensures (FLAG_TRANSLUCENT_STATUS | FLAG_TRANSLUCENT_NAVIGATION) & FLAG_DRAWS_SYSTEM_BAR_BACKGROUNDS == 0
    ensures HIDDEN_NAVIGATION & (DRAW_UNDER_STATUS_BAR | SYSTEM_UI_FLAG_LIGHT_STATUS_BAR | SYSTEM_UI_FLAG_LIGHT_NAVIGATION_BAR) == 0
    ensures DRAW_UNDER_STATUS_BAR & (SYSTEM_UI_FLAG_LIGHT_STATUS_BAR | SYSTEM_UI_FLAG_LIGHT_NAVIGATION_BAR) == 0
    ensures SYSTEM_UI_FLAG_LIGHT_STATUS_BAR & SYSTEM_UI_FLAG_LIGHT_NAVIGATION_BAR == 0
    ensures SYSTEM_UI_FLAG_LAYOUT_STABLE & SYSTEM_UI_FLAG_LAYOUT_FULLSCREEN == 0
    ensures SYSTEM_UI_FLAG_HIDE_NAVIGATION & SYSTEM_UI_FLAG_IMMERSIVE == 0
    ensures (SYSTEM_UI_FLAG_HIDE_NAVIGATION | SYSTEM_UI_FLAG_IMMERSIVE) & SYSTEM_UI_FLAG_IMMERSIVE_STICKY == 0
  {
  }

  /** `word or mask` when enabled, `word and mask.inv()` otherwise: the bits
      under `mask` all become set (or all clear) and every other bit is kept.
      What that means for each flag is stated by the functions below, on
      their constant masks. */
  function Toggled(word: bv32, mask: bv32, enabled: bool): bv32 {
    if enabled then word | mask else word & !mask
  }

  /** Toggling the same bits the same way twice is toggling them once. */
  lemma ToggledIdempotent(word: bv32, mask: bv32, enabled: bool)
    ensures Toggled(Toggled(word, mask, enabled), mask, enabled) == Toggled(word, mask, enabled)
  {
    if enabled {
      assert (word | mask) | mask == word | mask;
    } else {
      assert (word & !mask) & !mask == word & !mask;
    }
  }

  lemma SetThenClear(word: bv32, mask: bv32)
    requires word & mask == 0
    ensures (word | mask) & !mask == word
  {
  }

  lemma ClearThenSet(word: bv32, mask: bv32)
    requires word & mask == mask
    ensures (word & !mask) | mask == word
  {
  }

  /** Clearing undoes setting when the bits were clear before, and setting
      undoes clearing when they were set before. */
  lemma ToggledUndo(word: bv32, mask: bv32, enabled: bool)
    requires word & mask == (if enabled then 0 else mask)
    ensures Toggled(Toggled(word, mask, enabled), mask, !enabled) == word
  {
    if enabled {
      SetThenClear(word, mask);
    } else {
      ClearThenSet(word, mask);
    }
  }

  /** The stored values of a window that the helpers read and write. */
  datatype WindowState = WindowState(
    flags: bv32,
    systemUiVisibility: bv32,
    statusBarColor: bv32,
    navigationBarColor: bv32)

  /** `r` is `s` with the `mask` bits of the visibility word all set (or all
      clear) and nothing else changed. */
  ghost predicate UiBitsToggled(s: WindowState, r: WindowState, mask: bv32, enabled: bool) {
    && r.flags == s.flags
    && r.statusBarColor == s.statusBarColor
    && r.navigationBarColor == s.navigationBarColor
    && r.systemUiVisibility & mask == (if enabled then mask else 0)
    && r.systemUiVisibility & !mask == s.systemUiVisibility & !mask
  }

  /** `r` is `s` with the `mask` bits of the window flags all set (or all
      clear) and nothing else changed. */
  ghost predicate FlagBitsToggled(s: WindowState, r: WindowState, mask: bv32, enabled: bool) {
    && r.systemUiVisibility == s.systemUiVisibility
    && r.statusBarColor == s.statusBarColor
    && r.navigationBarColor == s.navigationBarColor
    && r.flags & mask == (if enabled then mask else 0)
    && r.flags & !mask == s.flags & !mask
  }

  // ---- status bar --------------------------------------------------------

  /** `setStatusBarColor(color)` */
  function StatusBarColor(s: WindowState, color: bv32): (r: WindowState)
    ensures r.statusBarColor == color
    ensures r.flags == s.flags && r.systemUiVisibility == s.systemUiVisibility
    ensures r.navigationBarColor == s.navigationBarColor
  {
    s.(statusBarColor := color)
  }

  /** `setLightStatusBar(enabled)` */
  function LightStatusBar(s: WindowState, enabled: bool): (r: WindowState)
    ensures UiBitsToggled(s, r, SYSTEM_UI_FLAG_LIGHT_STATUS_BAR, enabled)
  {
    s.(systemUiVisibility := Toggled(s.systemUiVisibility, SYSTEM_UI_FLAG_LIGHT_STATUS_BAR, enabled))
  }

  /** `setDrawUnderStatusBar(enabled)`: LAYOUT_STABLE and LAYOUT_FULLSCREEN together. */
  function DrawUnderStatusBar(s: WindowState, enabled: bool): (r: WindowState)
    ensures UiBitsToggled(s, r, DRAW_UNDER_STATUS_BAR, enabled)
    ensures r.systemUiVisibility & SYSTEM_UI_FLAG_LAYOUT_STABLE != 0 <==> enabled
    ensures r.systemUiVisibility & SYSTEM_UI_FLAG_LAYOUT_FULLSCREEN != 0 <==> enabled
  {
    s.(systemUiVisibility := Toggled(s.systemUiVisibility, DRAW_UNDER_STATUS_BAR, enabled))
  }

  /** `setTranslucentStatusBar(enabled)` */
  function TranslucentStatusBar(s: WindowState, enabled: bool): (r: WindowState)
    ensures FlagBitsToggled(s, r, FLAG_TRANSLUCENT_STATUS, enabled)
  {
    s.(flags := Toggled(s.flags, FLAG_TRANSLUCENT_STATUS, enabled))
  }

  /** `setTransparentStatusBar(enabled)`: with `true` the bar backgrounds are
      drawn by the app, the status bar becomes transparent and the content is
      laid out under it; with `false` both flag groups are cleared but the
      status bar colour is left as it was. */
  function TransparentStatusBar(s: WindowState, enabled: bool): (r: WindowState)
    ensures r.flags & FLAG_DRAWS_SYSTEM_BAR_BACKGROUNDS == (if enabled then FLAG_DRAWS_SYSTEM_BAR_BACKGROUNDS else 0)
    ensures r.flags & !FLAG_DRAWS_SYSTEM_BAR_BACKGROUNDS == s.flags & !FLAG_DRAWS_SYSTEM_BAR_BACKGROUNDS
    ensures r.systemUiVisibility & DRAW_UNDER_STATUS_BAR == (if enabled then DRAW_UNDER_STATUS_BAR else 0)
    ensures r.systemUiVisibility & !DRAW_UNDER_STATUS_BAR == s.systemUiVisibility & !DRAW_UNDER_STATUS_BAR
    ensures r.statusBarColor == (if enabled then TRANSPARENT else s.statusBarColor)
    ensures r.navigationBarColor == s.navigationBarColor
  {
    var t := s.(flags := Toggled(s.flags, FLAG_DRAWS_SYSTEM_BAR_BACKGROUNDS, enabled));
    DrawUnderStatusBar(if enabled then StatusBarColor(t, TRANSPARENT) else t, enabled)
  }

  /** `setStatusBarHidden(hidden)` */
  function StatusBarHidden(s: WindowState, hidden: bool): (r: WindowState)
    ensures FlagBitsToggled(s, r, FLAG_FULLSCREEN, hidden)
  {
    s.(flags := Toggled(s.flags, FLAG_FULLSCREEN, hidden))
  }

  // ---- navigation bar ----------------------------------------------------

  /** `setNavigationBarColor(color)` */
  function NavigationBarColor(s: WindowState, color: bv32): (r: WindowState)
    ensures r.navigationBarColor == color
    ensures r.flags == s.flags && r.systemUiVisibility == s.systemUiVisibility
    ensures r.statusBarColor == s.statusBarColor
  {
    s.(navigationBarColor := color)
  }

  /** `setTranslucentNavigationBar(enabled)` */
  function TranslucentNavigationBar(s: WindowState, enabled: bool): (r: WindowState)
    ensures FlagBitsToggled(s, r, FLAG_TRANSLUCENT_NAVIGATION, enabled)
  {
    s.(flags := Toggled(s.flags, FLAG_TRANSLUCENT_NAVIGATION, enabled))
  }

  /** `setTransparentNavigationBar(enabled)`: DRAWS_SYSTEM_BAR_BACKGROUNDS and
      LAYOUT_NO_LIMITS together; the navigation bar colour is never touched. */
  function TransparentNavigationBar(s: WindowState, enabled: bool): (r: WindowState)
    ensures FlagBitsToggled(s, r, FLAG_DRAWS_SYSTEM_BAR_BACKGROUNDS | FLAG_LAYOUT_NO_LIMITS, enabled)
  {
    var once := Toggled(s.flags, FLAG_DRAWS_SYSTEM_BAR_BACKGROUNDS, enabled);
    s.(flags := Toggled(once, FLAG_LAYOUT_NO_LIMITS, enabled))
  }

  /** `setNavigationBarHidden(enabled)`: with `true` the visibility word is
      replaced by exactly HIDE_NAVIGATION | IMMERSIVE | IMMERSIVE_STICKY, any
      other bit it held being dropped; with `false` only those three bits are
      cleared. */
  function NavigationBarHidden(s: WindowState, enabled: bool): (r: WindowState)
    ensures enabled ==> r.systemUiVisibility == HIDDEN_NAVIGATION
    ensures !enabled ==> UiBitsToggled(s, r, HIDDEN_NAVIGATION, false)
    ensures r.flags == s.flags
    ensures r.statusBarColor == s.statusBarColor && r.navigationBarColor == s.navigationBarColor
  {
    if enabled then
      s.(systemUiVisibility := SYSTEM_UI_FLAG_HIDE_NAVIGATION | SYSTEM_UI_FLAG_IMMERSIVE | SYSTEM_UI_FLAG_IMMERSIVE_STICKY)
    else
      var v1 := Toggled(s.systemUiVisibility, SYSTEM_UI_FLAG_HIDE_NAVIGATION, false);
      var v2 := Toggled(v1, SYSTEM_UI_FLAG_IMMERSIVE, false);
      s.(systemUiVisibility := Toggled(v2, SYSTEM_UI_FLAG_IMMERSIVE_STICKY, false))
  }

  /** `setLightNavigationBar(enabled)` */
  function LightNavigationBar(s: WindowState, enabled: bool): (r: WindowState)
    ensures UiBitsToggled(s, r, SYSTEM_UI_FLAG_LIGHT_NAVIGATION_BAR, enabled)
  {
    s.(systemUiVisibility := Toggled(s.systemUiVisibility, SYSTEM_UI_FLAG_LIGHT_NAVIGATION_BAR, enabled))
  }

  // ---- both bars ---------------------------------------------------------

  /** `setSystemBarColor(color)`: both bars take the colour. */
  function SystemBarColor(s: WindowState, color: bv32): (r: WindowState)
    ensures r.statusBarColor == color && r.navigationBarColor == color
    ensures r.flags == s.flags && r.systemUiVisibility == s.systemUiVisibility
  {
    NavigationBarColor(StatusBarColor(s, color), color)
  }

  /** `setTranslucentSystemBars(enabled)` */
  function TranslucentSystemBars(s: WindowState, enabled: bool): (r: WindowState)
    ensures FlagBitsToggled(s, r, FLAG_TRANSLUCENT_STATUS | FLAG_TRANSLUCENT_NAVIGATION, enabled)
  {
    TranslucentNavigationBar(TranslucentStatusBar(s, enabled), enabled)
  }

  /** `setTransparentSystemBars(enabled)` */
  function TransparentSystemBars(s: WindowState, enabled: bool): (r: WindowState)
    ensures r.flags & (FLAG_DRAWS_SYSTEM_BAR_BACKGROUNDS | FLAG_LAYOUT_NO_LIMITS)
            == (if enabled then FLAG_DRAWS_SYSTEM_BAR_BACKGROUNDS | FLAG_LAYOUT_NO_LIMITS else 0)
    ensures r.flags & !(FLAG_DRAWS_SYSTEM_BAR_BACKGROUNDS | FLAG_LAYOUT_NO_LIMITS)
            == s.flags & !(FLAG_DRAWS_SYSTEM_BAR_BACKGROUNDS | FLAG_LAYOUT_NO_LIMITS)
    ensures r.systemUiVisibility & DRAW_UNDER_STATUS_BAR == (if enabled then DRAW_UNDER_STATUS_BAR else 0)
    ensures r.systemUiVisibility & !DRAW_UNDER_STATUS_BAR == s.systemUiVisibility & !DRAW_UNDER_STATUS_BAR
    ensures r.statusBarColor == (if enabled then TRANSPARENT else s.statusBarColor)
    ensures r.navigationBarColor == s.navigationBarColor
  {
    TransparentNavigationBar(TransparentStatusBar(s, enabled), enabled)
  }

  /** `setSystemBarsHidden(hidden)`: with `true` FLAG_FULLSCREEN is set and
      the visibility word is exactly the three hide/immersive bits. */
  function SystemBarsHidden(s: WindowState, hidden: bool): (r: WindowState)
    ensures r.flags & FLAG_FULLSCREEN == (if hidden then FLAG_FULLSCREEN else 0)
    ensures r.flags & !FLAG_FULLSCREEN == s.flags & !FLAG_FULLSCREEN
    ensures hidden ==> r.systemUiVisibility == HIDDEN_NAVIGATION
    ensures !hidden ==> r.systemUiVisibility == s.systemUiVisibility & !HIDDEN_NAVIGATION
    ensures r.statusBarColor == s.statusBarColor && r.navigationBarColor == s.navigationBarColor
  {
    NavigationBarHidden(StatusBarHidden(s, hidden), hidden)
  }

  /** `setSystemBarsLight(enabled)` */
  function SystemBarsLight(s: WindowState, enabled: bool): (r: WindowState)
    ensures UiBitsToggled(s, r, SYSTEM_UI_FLAG_LIGHT_STATUS_BAR | SYSTEM_UI_FLAG_LIGHT_NAVIGATION_BAR, enabled)
  {
    LightNavigationBar(LightStatusBar(s, enabled), enabled)
  }

  // ---- properties relating several calls ---------------------------------

  /** The visibility-bit helpers are idempotent: a second call with the same
      argument changes nothing. */
  lemma LightStatusBarIdempotent(s: WindowState, enabled: bool)
    ensures LightStatusBar(LightStatusBar(s, enabled), enabled) == LightStatusBar(s, enabled)
  {
    ToggledIdempotent(s.systemUiVisibility, SYSTEM_UI_FLAG_LIGHT_STATUS_BAR, enabled);
  }

  lemma LightNavigationBarIdempotent(s: WindowState, enabled: bool)
    ensures LightNavigationBar(LightNavigationBar(s, enabled), enabled) == LightNavigationBar(s, enabled)
  {
    ToggledIdempotent(s.systemUiVisibility, SYSTEM_UI_FLAG_LIGHT_NAVIGATION_BAR, enabled);
  }

  lemma DrawUnderStatusBarIdempotent(s: WindowState, enabled: bool)
    ensures DrawUnderStatusBar(DrawUnderStatusBar(s, enabled), enabled) == DrawUnderStatusBar(s, enabled)
  {
    ToggledIdempotent(s.systemUiVisibility, DRAW_UNDER_STATUS_BAR, enabled);
  }

  /** The window-flag helpers are idempotent. */
  lemma FlagTogglesIdempotent(s: WindowState, enabled: bool)
    ensures TranslucentStatusBar(TranslucentStatusBar(s, enabled), enabled) == TranslucentStatusBar(s, enabled)
    ensures TranslucentNavigationBar(TranslucentNavigationBar(s, enabled), enabled) == TranslucentNavigationBar(s, enabled)
    ensures StatusBarHidden(StatusBarHidden(s, enabled), enabled) == StatusBarHidden(s, enabled)
  {
    ToggledIdempotent(s.flags, FLAG_TRANSLUCENT_STATUS, enabled);
    ToggledIdempotent(s.flags, FLAG_TRANSLUCENT_NAVIGATION, enabled);
    ToggledIdempotent(s.flags, FLAG_FULLSCREEN, enabled);
  }

  /** Making a bar transparent twice is making it transparent once. */
  lemma TransparentStatusBarIdempotent(s: WindowState, enabled: bool)
    ensures TransparentStatusBar(TransparentStatusBar(s, enabled), enabled) == TransparentStatusBar(s, enabled)
  {
    ToggledIdempotent(s.flags, FLAG_DRAWS_SYSTEM_BAR_BACKGROUNDS, enabled);
    ToggledIdempotent(s.systemUiVisibility, DRAW_UNDER_STATUS_BAR, enabled);
  }

  lemma TransparentNavigationBarIdempotent(s: WindowState, enabled: bool)
    ensures TransparentNavigationBar(TransparentNavigationBar(s, enabled), enabled) == TransparentNavigationBar(s, enabled)
  {
  }

  /** Hiding (or showing) the navigation bar twice is doing it once. */
  lemma NavigationBarHiddenIdempotent(s: WindowState, enabled: bool)
    ensures NavigationBarHidden(NavigationBarHidden(s, enabled), enabled) == NavigationBarHidden(s, enabled)
  {
  }

  /** Turning a single-bit helper off undoes turning it on, for a window on
      which that bit was off to begin with. */
  lemma LightStatusBarUndo(s: WindowState)
    requires s.systemUiVisibility & SYSTEM_UI_FLAG_LIGHT_STATUS_BAR == 0
    ensures LightStatusBar(LightStatusBar(s, true), false) == s
  {
    ToggledUndo(s.systemUiVisibility, SYSTEM_UI_FLAG_LIGHT_STATUS_BAR, true);
  }

  /** Hiding the navigation bar and showing it again keeps none of the
      visibility bits that were set before: the `true` call discards them. */
  lemma NavigationBarHiddenForgets(s: WindowState)
    ensures NavigationBarHidden(NavigationBarHidden(s, true), false).systemUiVisibility == 0
  {
  }

  /** The window of an activity, updated in place by the extension functions. */
  class Window {
    /** `window.attributes.flags` */
    var flags: bv32
    /** `window.decorView.systemUiVisibility` */
    var systemUiVisibility: bv32
    var statusBarColor: bv32
    var navigationBarColor: bv32

    function State(): WindowState
      reads this
    {
      WindowState(flags, systemUiVisibility, statusBarColor, navigationBarColor)
    }

    constructor (initial: WindowState)
      ensures State() == initial
    {
      flags := initial.flags;
      systemUiVisibility := initial.systemUiVisibility;
      statusBarColor := initial.statusBarColor;
      navigationBarColor := initial.navigationBarColor;
    }

    /** Window.addFlags */
    method AddWindowFlags(f: bv32)
      modifies this
      ensures State() == old(State()).(flags := Toggled(old(flags), f, true))
    {
      flags := Toggled(flags, f, true);
    }

    /** Window.clearFlags */
    method ClearWindowFlags(f: bv32)
      modifies this
      ensures State() == old(State()).(flags := Toggled(old(flags), f, false))
    {
      flags := Toggled(flags, f, false);
    }

    // ---- status bar ------------------------------------------------------

    method SetStatusBarColor(color: bv32)
      modifies this
      ensures State() == StatusBarColor(old(State()), color)
    {
      statusBarColor := color;
    }

    method SupportSetStatusBarColor(currentSdk: int, color: bv32)
      modifies this
      ensures State() == OnRelease(currentSdk, Lollipop, s => StatusBarColor(s, color), old(State()))
    {
      if IsRelease(currentSdk, Lollipop) {
        SetStatusBarColor(color);
      }
    }

    method SetLightStatusBar(enabled: bool)
      modifies this
      ensures State() == LightStatusBar(old(State()), enabled)
    {
      systemUiVisibility := Toggled(systemUiVisibility, SYSTEM_UI_FLAG_LIGHT_STATUS_BAR, enabled);
    }

    method SupportSetLightStatusBar(currentSdk: int, enabled: bool)
      modifies this
      ensures State() == OnRelease(currentSdk, Marshmallow, s => LightStatusBar(s, enabled), old(State()))
    {
      if IsRelease(currentSdk, Marshmallow) {
        SetLightStatusBar(enabled);
      }
    }

    method SetDrawUnderStatusBar(enabled: bool)
      modifies this
      ensures State() == DrawUnderStatusBar(old(State()), enabled)
    {
      systemUiVisibility := Toggled(systemUiVisibility, DRAW_UNDER_STATUS_BAR, enabled);
    }

    method SupportSetDrawUnderStatusBar(currentSdk: int, enabled: bool)
      modifies this
      ensures State() == OnRelease(currentSdk, JellyBean, s => DrawUnderStatusBar(s, enabled), old(State()))
    {
      if IsRelease(currentSdk, JellyBean) {
        SetDrawUnderStatusBar(enabled);
      }
    }

    method SetTranslucentStatusBar(enabled: bool)
      modifies this
      ensures State() == TranslucentStatusBar(old(State()), enabled)
    {
      flags := Toggled(flags, FLAG_TRANSLUCENT_STATUS, enabled);
    }

    method SupportSetTranslucentStatusBar(currentSdk: int, enabled: bool)
      modifies this
      ensures State() == OnRelease(currentSdk, Kitkat, s => TranslucentStatusBar(s, enabled), old(State()))
    {
      if IsRelease(currentSdk, Kitkat) {
        SetTranslucentStatusBar(enabled);
      }
    }

    method SetTransparentStatusBar(enabled: bool)
      modifies this
      ensures State() == TransparentStatusBar(old(State()), enabled)
    {
      if enabled {
        AddWindowFlags(FLAG_DRAWS_SYSTEM_BAR_BACKGROUNDS);
        SetStatusBarColor(TRANSPARENT);
      } else {
        ClearWindowFlags(FLAG_DRAWS_SYSTEM_BAR_BACKGROUNDS);
      }
      SetDrawUnderStatusBar(enabled);
    }

    method SupportSetTransparentStatusBar(currentSdk: int, enabled: bool)
      modifies this
      ensures State() == OnRelease(currentSdk, Lollipop, s => TransparentStatusBar(s, enabled), old(State()))
    {
      if IsRelease(currentSdk, Lollipop) {
        SetTransparentStatusBar(enabled);
      }
    }

    method SetStatusBarHidden(hidden: bool)
      modifies this
      ensures State() == StatusBarHidden(old(State()), hidden)
    {
      if hidden {
        AddWindowFlags(FLAG_FULLSCREEN);
      } else {
        ClearWindowFlags(FLAG_FULLSCREEN);
      }
    }

    // ---- navigation bar --------------------------------------------------

    method SetNavigationBarColor(color: bv32)
      modifies this
      ensures State() == NavigationBarColor(old(State()), color)
    {
      navigationBarColor := color;
    }

    method SupportSetNavigationBarColor(currentSdk: int, color: bv32)
      modifies this
      ensures State() == OnRelease(currentSdk, Lollipop, s => NavigationBarColor(s, color), old(State()))
    {
      if IsRelease(currentSdk, Lollipop) {
        SetNavigationBarColor(color);
      }
    }

    method SetTranslucentNavigationBar(enabled: bool)
      modifies this
      ensures State() == TranslucentNavigationBar(old(State()), enabled)
    {
      flags := Toggled(flags, FLAG_TRANSLUCENT_NAVIGATION, enabled);
    }

    method SupportSetTranslucentNavigationBar(currentSdk: int, enabled: bool)
      modifies this
      ensures State() == OnRelease(currentSdk, Kitkat, s => TranslucentNavigationBar(s, enabled), old(State()))
    {
      if IsRelease(currentSdk, Kitkat) {
        SetTranslucentNavigationBar(enabled);
      }
    }

    method SetTransparentNavigationBar(enabled: bool)
      modifies this
      ensures State() == TransparentNavigationBar(old(State()), enabled)
    {
      if enabled {
        AddWindowFlags(FLAG_DRAWS_SYSTEM_BAR_BACKGROUNDS);
        AddWindowFlags(FLAG_LAYOUT_NO_LIMITS);
      } else {
        ClearWindowFlags(FLAG_DRAWS_SYSTEM_BAR_BACKGROUNDS);
        ClearWindowFlags(FLAG_LAYOUT_NO_LIMITS);
      }
    }

    method SupportSetTransparentNavigationBar(currentSdk: int, enabled: bool)
      modifies this
      ensures State() == OnRelease(currentSdk, Lollipop, s => TransparentNavigationBar(s, enabled), old(State()))
    {
      if IsRelease(currentSdk, Lollipop) {
        SetTransparentNavigationBar(enabled);
      }
    }

    method SetNavigationBarHidden(enabled: bool)
      modifies this
      ensures State() == NavigationBarHidden(old(State()), enabled)
    {
      if enabled {
        systemUiVisibility := SYSTEM_UI_FLAG_HIDE_NAVIGATION | SYSTEM_UI_FLAG_IMMERSIVE | SYSTEM_UI_FLAG_IMMERSIVE_STICKY;
      } else {
        var visibility := systemUiVisibility;
        visibility := Toggled(visibility, SYSTEM_UI_FLAG_HIDE_NAVIGATION, false);
        visibility := Toggled(visibility, SYSTEM_UI_FLAG_IMMERSIVE, false);
        visibility := Toggled(visibility, SYSTEM_UI_FLAG_IMMERSIVE_STICKY, false);
        systemUiVisibility := visibility;
      }
    }

    method SupportSetNavigationBarHidden(currentSdk: int, enabled: bool)
      modifies this
      ensures State() == OnRelease(currentSdk, Kitkat, s => NavigationBarHidden(s, enabled), old(State()))
    {
      if IsRelease(currentSdk, Kitkat) {
        SetNavigationBarHidden(enabled);
      }
    }

    method SetLightNavigationBar(enabled: bool)
      modifies this
      ensures State() == LightNavigationBar(old(State()), enabled)
    {
      systemUiVisibility := Toggled(systemUiVisibility, SYSTEM_UI_FLAG_LIGHT_NAVIGATION_BAR, enabled);
    }

    method SupportSetLightNavigationBar(currentSdk: int, enabled: bool)
      modifies this
      ensures State() == OnRelease(currentSdk, Oreo, s => LightNavigationBar(s, enabled), old(State()))
    {
      if IsRelease(currentSdk, Oreo) {
        SetLightNavigationBar(enabled);
      }
    }

    // ---- both bars -------------------------------------------------------

    method SetSystemBarColor(color: bv32)
      modifies this
      ensures State() == SystemBarColor(old(State()), color)
    {
      SetStatusBarColor(color);
      SetNavigationBarColor(color);
    }

    method SupportSetSystemBarColor(currentSdk: int, color: bv32)
      modifies this
      ensures State() == OnRelease(currentSdk, Lollipop, s => SystemBarColor(s, color), old(State()))
    {
      if IsRelease(currentSdk, Lollipop) {
        SetSystemBarColor(color);
      }
    }

    method SetTranslucentSystemBars(enabled: bool)
      modifies this
      ensures State() == TranslucentSystemBars(old(State()), enabled)
    {
      SetTranslucentStatusBar(enabled);
      SetTranslucentNavigationBar(enabled);
    }

    method SupportSetTranslucentSystemBars(currentSdk: int, enabled: bool)
      modifies this
      ensures State() == OnRelease(currentSdk, Kitkat, s => TranslucentSystemBars(s, enabled), old(State()))
    {
      if IsRelease(currentSdk, Kitkat) {
        SetTranslucentSystemBars(enabled);
      }
    }

    method SetTransparentSystemBars(enabled: bool)
      modifies this
      ensures State() == TransparentSystemBars(old(State()), enabled)
    {
      SetTransparentStatusBar(enabled);
      SetTransparentNavigationBar(enabled);
    }

    method SupportSetTransparentSystemBars(currentSdk: int, enabled: bool)
      modifies this
      ensures State() == OnRelease(currentSdk, Lollipop, s => TransparentSystemBars(s, enabled), old(State()))
    {
      if IsRelease(currentSdk, Lollipop) {
        SetTransparentSystemBars(enabled);
      }
    }

    method SetSystemBarsHidden(hidden: bool)
      modifies this
      ensures State() == SystemBarsHidden(old(State()), hidden)
    {
      SetStatusBarHidden(hidden);
      SetNavigationBarHidden(hidden);
    }

    method SetSystemBarsLight(enabled: bool)
      modifies this
      ensures State() == SystemBarsLight(old(State()), enabled)
    {
      SetLightStatusBar(enabled);
      SetLightNavigationBar(enabled);
    }

    method SupportSetSystemBarsLight(currentSdk: int, enabled: bool)
      modifies this
      ensures State() == OnRelease(currentSdk, Oreo, s => SystemBarsLight(s, enabled), old(State()))
    {
      if IsRelease(currentSdk, Oreo) {
        SetSystemBarsLight(enabled);
      }
    }
  }

  /** A client of the class: a second `setLightStatusBar(true)` leaves the
      window as the first one did, and every other field is untouched. */
  method LightStatusBarTwice(w: Window)
    modifies w
    ensures w.State() == LightStatusBar(old(w.State()), true)
  {
    w.SetLightStatusBar(true);
    w.SetLightStatusBar(true);
    LightStatusBarIdempotent(old(w.State()), true);
  }
}
