# kommon-extensions in Dafny

A model of the deterministic core of kommon-extensions, a library of Kotlin
extension functions for Android. The model covers:

- the system-bar helpers, which set and clear bits of an activity window's
  layout flags and `systemUiVisibility` word and assign the bar colours;
- the version-gated table from system-service manager class to service name,
  and the lookups built on it;
- packed ARGB colour arithmetic;
- the `isX` platform-version flags and the `aboveSdk`/`onSdk`/`belowSdk`/`onX`
  guards;
- index lookup and iteration over menus, view-group children and lists;
- the view setters for visibility, padding, margins and size, and the
  compound-drawable slots of a text view;
- the zero padding of `md5()`;
- the orientation, tablet, navigation-bar, connectivity, charging and
  battery-level decisions;
- the size rule of `toBitmap()` and the choices made by `tint()`.

Code that updates objects in place is modelled as classes whose methods
change fields. `Window`, `View`, `LayoutParams`, `TextView`, `ViewGroup`,
`ChildIterator` and `Drawable` are classes. The loops of `CollectionExt.kt`,
`ViewGroupExt.kt` and `StringExt.kt` are `while` loops with invariants.

Each stateful method is specified by a pure function, either of the old state
or of its inputs:

- `Window` methods are tied to functions on `WindowState`.
- The loops are tied to `Sequences.FoldLeft` and to the visited index orders
  `Ascending` and `Descending`.
- `md5()`'s padding loop is tied to `Zeros`.

Lemmas then state what the source promises about those functions:

- which bits change;
- idempotence and undo;
- monotonicity of the service table;
- round trips and visiting order.

Some values come from the platform at run time: `Build.VERSION.SDK_INT`, the
display rotation, the active network, the battery intent, resources, and
HSV and float conversions. These are parameters of the members that read
them.

Kotlin default arguments (`left: Int = paddingLeft`) are modelled by
`Wrappers.Arg`. An omitted argument is `Keep` and takes the current value;
a passed one is `Given(v)`.

One table of the source is keyed by class. In `SystemServiceExt.kt`, the
accessibility line stores `AccessibilityService::class`, not
`AccessibilityManager::class`. The model keeps that key as written, and
`NeverFoundBelowApi23` proves its consequence.

## Model

| member | source | states |
|---|---|---|
| Build.MinSdk | kommonextensions/src/main/java/com/ivianuu/kommonextensions/BuildExt.kt:23-47 | the least sdk of each release is 15 plus its position in the release list, so each release is one version after the previous, and `isOreoMr1` is strictly above O |
| Build.IsRelease | kommonextensions/src/main/java/com/ivianuu/kommonextensions/BuildExt.kt:23-47 | each `isX` flag holds exactly when `currentSdk` is at least the release's version code; the flags of `AnyExt.kt` (lines 29-84) are the same comparisons, without `isOreoMr1` |
| Build.ReleaseChain | kommonextensions/src/main/java/com/ivianuu/kommonextensions/BuildExt.kt:23-47 | the flags form a chain: a later release's flag implies every earlier release's flag |
| Build.ReleaseMonotoneInSdk | kommonextensions/src/main/java/com/ivianuu/kommonextensions/AnyExt.kt:29-84 | a flag that holds on one sdk holds on every later sdk |
| Build.AboveSdk | kommonextensions/src/main/java/com/ivianuu/kommonextensions/BuildExt.kt:49-51 | the action runs iff `currentSdk > sdk`; otherwise the state is returned untouched |
| Build.OnSdk | kommonextensions/src/main/java/com/ivianuu/kommonextensions/BuildExt.kt:53-55 | the action runs iff `currentSdk >= sdk`; otherwise the state is untouched |
| Build.BelowSdk | kommonextensions/src/main/java/com/ivianuu/kommonextensions/BuildExt.kt:57-59 | the action runs iff `currentSdk < sdk`; otherwise the state is untouched |
| Build.OnRelease | kommonextensions/src/main/java/com/ivianuu/kommonextensions/BuildExt.kt:61-111 | each `onX` guard runs the action iff the release's flag holds, and otherwise leaves the state unchanged |
| Build.OnSdkIsAboveSdkMinusOne | kommonextensions/src/main/java/com/ivianuu/kommonextensions/BuildExt.kt:49-55 | `onSdk(s)` behaves exactly as `aboveSdk(s - 1)` for every action and state |
| Build.OnSdkAndBelowSdkRunExactlyOne | kommonextensions/src/main/java/com/ivianuu/kommonextensions/BuildExt.kt:53-59 | for the same sdk, `onSdk` then `belowSdk` runs exactly one of the two actions |
| Build.OnReleaseIsOnSdk | kommonextensions/src/main/java/com/ivianuu/kommonextensions/BuildExt.kt:61-111 | every `onX` guard equals `onSdk` at the release's least sdk |
| SystemBars.ToggledIdempotent | kommonextensions/src/main/java/com/ivianuu/kommonextensions/SystemBarsExt.kt:99-103 | setting (or clearing) a group of bits twice gives the same word as doing it once |
| SystemBars.ToggledUndo | kommonextensions/src/main/java/com/ivianuu/kommonextensions/ActivityExt.kt:180-184 | clearing bits that were clear before setting them restores the word, and setting bits that were set before clearing them restores it |
| SystemBars.StatusBarColor | kommonextensions/src/main/java/com/ivianuu/kommonextensions/SystemBarsExt.kt:85-87 | the status bar colour becomes the given colour; the flags, the visibility word and the navigation bar colour are unchanged |
| SystemBars.LightStatusBar | kommonextensions/src/main/java/com/ivianuu/kommonextensions/SystemBarsExt.kt:96-104 | LIGHT_STATUS_BAR becomes set (`true`) or clear (`false`); every other visibility bit, the flags and both colours are unchanged |
| SystemBars.DrawUnderStatusBar | kommonextensions/src/main/java/com/ivianuu/kommonextensions/SystemBarsExt.kt:113-122 | LAYOUT_STABLE and LAYOUT_FULLSCREEN are set or cleared together, each exactly when enabled; no other bit or colour changes |
| SystemBars.TranslucentStatusBar | kommonextensions/src/main/java/com/ivianuu/kommonextensions/SystemBarsExt.kt:131-138 | FLAG_TRANSLUCENT_STATUS becomes set or clear; every other flag bit, the visibility word and both colours are unchanged |
| SystemBars.TransparentStatusBar | kommonextensions/src/main/java/com/ivianuu/kommonextensions/SystemBarsExt.kt:147-156 | with `true`, DRAWS_SYSTEM_BAR_BACKGROUNDS and the draw-under bits are set and the status bar becomes TRANSPARENT; with `false` they are cleared and the status bar colour is kept; no other bit changes and the navigation bar colour is kept |
| SystemBars.StatusBarHidden | kommonextensions/src/main/java/com/ivianuu/kommonextensions/SystemBarsExt.kt:164-170 | FLAG_FULLSCREEN becomes set or clear and nothing else changes |
| SystemBars.NavigationBarColor | kommonextensions/src/main/java/com/ivianuu/kommonextensions/SystemBarsExt.kt:175-177 | the navigation bar colour becomes the given colour; nothing else changes |
| SystemBars.TranslucentNavigationBar | kommonextensions/src/main/java/com/ivianuu/kommonextensions/SystemBarsExt.kt:186-193 | FLAG_TRANSLUCENT_NAVIGATION becomes set or clear and nothing else changes |
| SystemBars.TransparentNavigationBar | kommonextensions/src/main/java/com/ivianuu/kommonextensions/SystemBarsExt.kt:202-210 | DRAWS_SYSTEM_BAR_BACKGROUNDS and LAYOUT_NO_LIMITS are set or cleared together; the navigation bar colour and everything else are unchanged |
| SystemBars.NavigationBarHidden | kommonextensions/src/main/java/com/ivianuu/kommonextensions/SystemBarsExt.kt:219-232 | with `true` the visibility word becomes exactly HIDE_NAVIGATION, IMMERSIVE and IMMERSIVE_STICKY, any other bit being dropped; with `false` only those three bits are cleared; flags and colours are unchanged |
| SystemBars.LightNavigationBar | kommonextensions/src/main/java/com/ivianuu/kommonextensions/SystemBarsExt.kt:241-249 | LIGHT_NAVIGATION_BAR becomes set or clear; every other bit and both colours are unchanged |
| SystemBars.SystemBarColor | kommonextensions/src/main/java/com/ivianuu/kommonextensions/SystemBarsExt.kt:30-33 | both bar colours become the given colour, and the flags and visibility word are unchanged |
| SystemBars.TranslucentSystemBars | kommonextensions/src/main/java/com/ivianuu/kommonextensions/SystemBarsExt.kt:42-45 | both translucent flags are set or cleared together and nothing else changes |
| SystemBars.TransparentSystemBars | kommonextensions/src/main/java/com/ivianuu/kommonextensions/SystemBarsExt.kt:54-57 | DRAWS_SYSTEM_BAR_BACKGROUNDS, LAYOUT_NO_LIMITS and the draw-under bits are set or cleared; the status bar becomes TRANSPARENT only when enabled; the navigation bar colour is kept |
| SystemBars.SystemBarsHidden | kommonextensions/src/main/java/com/ivianuu/kommonextensions/SystemBarsExt.kt:65-68 | FLAG_FULLSCREEN becomes set or clear; with `true` the visibility word is exactly the three hide/immersive bits; with `false` only those bits are cleared |
| SystemBars.SystemBarsLight | kommonextensions/src/main/java/com/ivianuu/kommonextensions/SystemBarsExt.kt:71-74 | both light bits are set or cleared together and nothing else changes |
| SystemBars.LightStatusBarIdempotent | kommonextensions/src/main/java/com/ivianuu/kommonextensions/SystemBarsExt.kt:100-102 | a second `setLightStatusBar` with the same argument changes nothing |
| SystemBars.LightNavigationBarIdempotent | kommonextensions/src/main/java/com/ivianuu/kommonextensions/SystemBarsExt.kt:244-248 | a second `setLightNavigationBar` with the same argument changes nothing |
| SystemBars.DrawUnderStatusBarIdempotent | kommonextensions/src/main/java/com/ivianuu/kommonextensions/SystemBarsExt.kt:117-121 | a second `setDrawUnderStatusBar` with the same argument changes nothing |
| SystemBars.FlagTogglesIdempotent | kommonextensions/src/main/java/com/ivianuu/kommonextensions/SystemBarsExt.kt:131-170 | `setTranslucentStatusBar`, `setTranslucentNavigationBar` and `setStatusBarHidden` are each idempotent |
| SystemBars.TransparentStatusBarIdempotent | kommonextensions/src/main/java/com/ivianuu/kommonextensions/ActivityExt.kt:246-255 | a second `setTransparentStatusBar` with the same argument changes nothing |
| SystemBars.TransparentNavigationBarIdempotent | kommonextensions/src/main/java/com/ivianuu/kommonextensions/ActivityExt.kt:322-330 | a second `setTransparentNavigationBar` with the same argument changes nothing |
| SystemBars.NavigationBarHiddenIdempotent | kommonextensions/src/main/java/com/ivianuu/kommonextensions/ActivityExt.kt:345-358 | a second `setNavigationBarHidden` with the same argument changes nothing |
| SystemBars.LightStatusBarUndo | kommonextensions/src/main/java/com/ivianuu/kommonextensions/ActivityExt.kt:177-185 | on a window whose light-status bit is clear, turning it on and then off gives the window back exactly |
| SystemBars.NavigationBarHiddenForgets | kommonextensions/src/main/java/com/ivianuu/kommonextensions/SystemBarsExt.kt:222-230 | hiding and then showing the navigation bar leaves no visibility bit set, whatever was set before |
| SystemBars.Window.AddWindowFlags | kommonextensions/src/main/java/com/ivianuu/kommonextensions/ActivityExt.kt:248 | `window.addFlags(f)` sets the bits of `f` in the flags word and changes no other field |
| SystemBars.Window.ClearWindowFlags | kommonextensions/src/main/java/com/ivianuu/kommonextensions/ActivityExt.kt:251 | `window.clearFlags(f)` clears the bits of `f` in the flags word and changes no other field |
| SystemBars.Window.SetStatusBarColor | kommonextensions/src/main/java/com/ivianuu/kommonextensions/ActivityExt.kt:160-162 | the window's new state is `StatusBarColor` of its old state |
| SystemBars.Window.SupportSetStatusBarColor | kommonextensions/src/main/java/com/ivianuu/kommonextensions/ActivityExt.kt:167-171 | the colour is set when `isLollipop` holds; otherwise the window is unchanged |
| SystemBars.Window.SetLightStatusBar | kommonextensions/src/main/java/com/ivianuu/kommonextensions/ActivityExt.kt:177-185 | the window's new state is `LightStatusBar` of its old state: only the light-status bit changes |
| SystemBars.Window.SupportSetLightStatusBar | kommonextensions/src/main/java/com/ivianuu/kommonextensions/ActivityExt.kt:190-194 | as `setLightStatusBar` when `isMarshmallow` holds; otherwise the window is unchanged |
| SystemBars.Window.SetDrawUnderStatusBar | kommonextensions/src/main/java/com/ivianuu/kommonextensions/ActivityExt.kt:200-209 | the window's new state is `DrawUnderStatusBar` of its old state |
| SystemBars.Window.SupportSetDrawUnderStatusBar | kommonextensions/src/main/java/com/ivianuu/kommonextensions/ActivityExt.kt:214-218 | as `setDrawUnderStatusBar` when `isJellyBean` holds; otherwise the window is unchanged |
| SystemBars.Window.SetTranslucentStatusBar | kommonextensions/src/main/java/com/ivianuu/kommonextensions/ActivityExt.kt:224-231 | the window's new state is `TranslucentStatusBar` of its old state |
| SystemBars.Window.SupportSetTranslucentStatusBar | kommonextensions/src/main/java/com/ivianuu/kommonextensions/ActivityExt.kt:236-240 | as `setTranslucentStatusBar` when `isKitkat` holds; otherwise the window is unchanged |
| SystemBars.Window.SetTransparentStatusBar | kommonextensions/src/main/java/com/ivianuu/kommonextensions/ActivityExt.kt:246-255 | the sequence addFlags/clearFlags, colour and draw-under ends in `TransparentStatusBar` of the old state |
| SystemBars.Window.SupportSetTransparentStatusBar | kommonextensions/src/main/java/com/ivianuu/kommonextensions/ActivityExt.kt:260-264 | as `setTransparentStatusBar` when `isLollipop` holds; otherwise the window is unchanged |
| SystemBars.Window.SetStatusBarHidden | kommonextensions/src/main/java/com/ivianuu/kommonextensions/ActivityExt.kt:269-275 | the window's new state is `StatusBarHidden` of its old state |
| SystemBars.Window.SetNavigationBarColor | kommonextensions/src/main/java/com/ivianuu/kommonextensions/ActivityExt.kt:283-285 | the window's new state is `NavigationBarColor` of its old state |
| SystemBars.Window.SupportSetNavigationBarColor | kommonextensions/src/main/java/com/ivianuu/kommonextensions/ActivityExt.kt:290-294 | the colour is set when `isLollipop` holds; otherwise the window is unchanged |
| SystemBars.Window.SetTranslucentNavigationBar | kommonextensions/src/main/java/com/ivianuu/kommonextensions/ActivityExt.kt:300-307 | the window's new state is `TranslucentNavigationBar` of its old state |
| SystemBars.Window.SupportSetTranslucentNavigationBar | kommonextensions/src/main/java/com/ivianuu/kommonextensions/ActivityExt.kt:312-316 | as `setTranslucentNavigationBar` when `isKitkat` holds; otherwise the window is unchanged |
| SystemBars.Window.SetTransparentNavigationBar | kommonextensions/src/main/java/com/ivianuu/kommonextensions/ActivityExt.kt:322-330 | the two addFlags (or clearFlags) calls end in `TransparentNavigationBar` of the old state |
| SystemBars.Window.SupportSetTransparentNavigationBar | kommonextensions/src/main/java/com/ivianuu/kommonextensions/ActivityExt.kt:335-339 | as `setTransparentNavigationBar` when `isLollipop` holds; otherwise the window is unchanged |
| SystemBars.Window.SetNavigationBarHidden | kommonextensions/src/main/java/com/ivianuu/kommonextensions/ActivityExt.kt:345-358 | the overwrite, or the three successive clears, end in `NavigationBarHidden` of the old state |
| SystemBars.Window.SupportSetNavigationBarHidden | kommonextensions/src/main/java/com/ivianuu/kommonextensions/ActivityExt.kt:363-367 | as `setNavigationBarHidden` when `isKitkat` holds; otherwise the window is unchanged |
| SystemBars.Window.SetLightNavigationBar | kommonextensions/src/main/java/com/ivianuu/kommonextensions/ActivityExt.kt:373-381 | the window's new state is `LightNavigationBar` of its old state |
| SystemBars.Window.SupportSetLightNavigationBar | kommonextensions/src/main/java/com/ivianuu/kommonextensions/ActivityExt.kt:386-390 | as `setLightNavigationBar` when `isOreo` holds; otherwise the window is unchanged |
| SystemBars.Window.SetSystemBarColor | kommonextensions/src/main/java/com/ivianuu/kommonextensions/ActivityExt.kt:78-81 | afterwards both bar colours are the given colour (`SystemBarColor` of the old state) |
| SystemBars.Window.SupportSetSystemBarColor | kommonextensions/src/main/java/com/ivianuu/kommonextensions/ActivityExt.kt:86-90 | as `setSystemBarColor` when `isLollipop` holds; otherwise the window is unchanged |
| SystemBars.Window.SetTranslucentSystemBars | kommonextensions/src/main/java/com/ivianuu/kommonextensions/ActivityExt.kt:96-99 | the window's new state is `TranslucentSystemBars` of its old state |
| SystemBars.Window.SupportSetTranslucentSystemBars | kommonextensions/src/main/java/com/ivianuu/kommonextensions/ActivityExt.kt:104-108 | as `setTranslucentSystemBars` when `isKitkat` holds; otherwise the window is unchanged |
| SystemBars.Window.SetTransparentSystemBars | kommonextensions/src/main/java/com/ivianuu/kommonextensions/ActivityExt.kt:114-117 | the window's new state is `TransparentSystemBars` of its old state |
| SystemBars.Window.SupportSetTransparentSystemBars | kommonextensions/src/main/java/com/ivianuu/kommonextensions/ActivityExt.kt:122-126 | as `setTransparentSystemBars` when `isLollipop` holds; otherwise the window is unchanged |
| SystemBars.Window.SetSystemBarsHidden | kommonextensions/src/main/java/com/ivianuu/kommonextensions/ActivityExt.kt:131-134 | the window's new state is `SystemBarsHidden` of its old state: FLAG_FULLSCREEN set and the visibility word exactly the three hide/immersive bits when hiding |
| SystemBars.Window.SetSystemBarsLight | kommonextensions/src/main/java/com/ivianuu/kommonextensions/ActivityExt.kt:140-143 | the window's new state is `SystemBarsLight` of its old state |
| SystemBars.Window.SupportSetSystemBarsLight | kommonextensions/src/main/java/com/ivianuu/kommonextensions/ActivityExt.kt:148-152 | as `setSystemBarsLight` when `isOreo` holds; otherwise the window is unchanged |
| SystemBars.LightStatusBarTwice | kommonextensions/src/main/java/com/ivianuu/kommonextensions/ActivityExt.kt:177-185 | calling `setLightStatusBar(true)` twice on a window leaves it as one call does |
| SystemServices.ServicesLookup | kommonextensions/src/main/java/com/ivianuu/kommonextensions/SystemServiceExt.kt:63-127 | a class is in the table on a given sdk exactly when its line exists and that line's guard holds on that sdk, and it then maps to that line's name |
| SystemServices.Services | kommonextensions/src/main/java/com/ivianuu/kommonextensions/SystemServiceExt.kt:63-127 | the table only holds classes its lines mention, and from API 23 every class with a line is in it |
| SystemServices.GuardsAtMostApi22 | kommonextensions/src/main/java/com/ivianuu/kommonextensions/SystemServiceExt.kt:64-97 | no `if` block of the table has a threshold above 22 |
| SystemServices.UnconditionalAlwaysPresent | kommonextensions/src/main/java/com/ivianuu/kommonextensions/SystemServiceExt.kt:98-126 | the lines outside every `if` block are in the table on every sdk |
| SystemServices.GuardedPresentIffAbove | kommonextensions/src/main/java/com/ivianuu/kommonextensions/SystemServiceExt.kt:64-97 | a line inside an `if` block is present iff the sdk is strictly above that block's threshold |
| SystemServices.ServicesMonotone | kommonextensions/src/main/java/com/ivianuu/kommonextensions/SystemServiceExt.kt:63-127 | the table only grows with the sdk: an entry present on sdk1 is present, with the same name, on every sdk2 >= sdk1 |
| SystemServices.ThresholdsAreStrict | kommonextensions/src/main/java/com/ivianuu/kommonextensions/SystemServiceExt.kt:68-79 | the block with CameraManager is present iff sdk > 21, so not on API 21 itself, and then maps to CAMERA_SERVICE |
| SystemServices.SystemServiceName | kommonextensions/src/main/java/com/ivianuu/kommonextensions/SystemServiceExt.kt:146-152 | from API 23 the platform's answer; below, a name iff the class's table line exists and its guard holds, and then that line's name |
| SystemServices.GetSystemServiceCompat | kommonextensions/src/main/java/com/ivianuu/kommonextensions/SystemServiceExt.kt:134-144 | from API 23 the service is fetched by class; below, by the table's name, failing with IllegalArgumentException for that class exactly when the table has no usable line |
| SystemServices.CompatFailsIffNoName | kommonextensions/src/main/java/com/ivianuu/kommonextensions/SystemServiceExt.kt:139-143 | below API 23 the lookup throws exactly when `systemServiceName` is null, and otherwise fetches by that name |
| SystemServices.NeverFoundBelowApi23 | kommonextensions/src/main/java/com/ivianuu/kommonextensions/SystemServiceExt.kt:64-98 | below API 23, SubscriptionManager, UsageStatsManager and AccessibilityManager always make the lookup throw |
| Colors.Alpha | kommonextensions/src/main/java/com/ivianuu/kommonextensions/ColorExt.kt:28 | the alpha channel is a byte value |
| Colors.Red | kommonextensions/src/main/java/com/ivianuu/kommonextensions/ColorExt.kt:50 | the red channel is a byte value |
| Colors.Green | kommonextensions/src/main/java/com/ivianuu/kommonextensions/ColorExt.kt:51 | the green channel is a byte value |
| Colors.Blue | kommonextensions/src/main/java/com/ivianuu/kommonextensions/ColorExt.kt:52 | the blue channel is a byte value |
| Colors.ArgbChannels | kommonextensions/src/main/java/com/ivianuu/kommonextensions/ColorExt.kt:53 | packing four byte channels with `Color.argb` and reading them back gives them unchanged |
| Colors.StripAlpha | kommonextensions/src/main/java/com/ivianuu/kommonextensions/ColorExt.kt:24 | the alpha byte becomes 0xFF and the low 24 bits are kept |
| Colors.StripAlphaIdempotent | kommonextensions/src/main/java/com/ivianuu/kommonextensions/IntExt.kt:24-26 | stripping alpha twice is stripping it once |
| Colors.Invert | kommonextensions/src/main/java/com/ivianuu/kommonextensions/ColorExt.kt:49-54 | alpha is kept, and red, green and blue each become 255 minus their old value |
| Colors.InvertInvolution | kommonextensions/src/main/java/com/ivianuu/kommonextensions/IntExt.kt:70-75 | inverting twice gives the colour back |
| Colors.ClampToByte | kommonextensions/src/main/java/com/ivianuu/kommonextensions/IntExt.kt:92 | `min(255, max(0, x))` on a two's-complement 32-bit Int: negative gives 0, above 255 gives 255, otherwise x |
| Colors.AlphaOverRgb | kommonextensions/src/main/java/com/ivianuu/kommonextensions/ColorExt.kt:65-67 | adding the shifted alpha byte to the low 24 bits never carries: it equals `or`, and the channels come out as given |
| Colors.WithAlpha | kommonextensions/src/main/java/com/ivianuu/kommonextensions/ColorExt.kt:64-68 | the alpha byte is the clamped `(alpha * 255).toInt()` and the low 24 bits are kept |
| Colors.WithAlphaOverrides | kommonextensions/src/main/java/com/ivianuu/kommonextensions/IntExt.kt:91-95 | setting the alpha twice keeps only the second |
| Colors.Shift | kommonextensions/src/main/java/com/ivianuu/kommonextensions/ColorExt.kt:26-33 | a factor of exactly 1 returns the colour itself; otherwise alpha is kept and the low 24 bits come from the scaled HSV colour |
| Colors.Darken | kommonextensions/src/main/java/com/ivianuu/kommonextensions/IntExt.kt:40-42 | alpha is kept and the rest comes from the colour scaled by 0.9 |
| Colors.Lighten | kommonextensions/src/main/java/com/ivianuu/kommonextensions/IntExt.kt:47-49 | alpha is kept and the rest comes from the colour scaled by 1.1 |
| Colors.ShiftKeepsAlpha | kommonextensions/src/main/java/com/ivianuu/kommonextensions/IntExt.kt:28-35 | for a factor other than 1, `shift` is `withAlpha` of the scaled colour at the colour's own alpha |
| Colors.IsDark | kommonextensions/src/main/java/com/ivianuu/kommonextensions/ColorExt.kt:39 | a colour is dark exactly when 299 R + 587 G + 114 B is at most 153000, whatever its alpha |
| Colors.IsLight | kommonextensions/src/main/java/com/ivianuu/kommonextensions/IntExt.kt:59-65 | a colour is light exactly when 299 R + 587 G + 114 B exceeds 153000: the real-valued darkness test in whole numbers, independent of alpha |
| Colors.WhiteIsLightBlackIsDark | kommonextensions/src/main/java/com/ivianuu/kommonextensions/ColorExt.kt:41-47 | opaque white is light and opaque black is dark |
| Menus.IsEmpty | kommonextensions/src/main/java/com/ivianuu/kommonextensions/MenuExt.kt:22 | a menu is empty iff it has no items |
| Menus.Get | kommonextensions/src/main/java/com/ivianuu/kommonextensions/MenuExt.kt:29 | `get(index)` on an index inside the menu returns the item standing at that index: putting it back between the entries before and after the index rebuilds the menu |
| Menus.LastIndex | kommonextensions/src/main/java/com/ivianuu/kommonextensions/MenuExt.kt:24 | -1 exactly for an empty menu; otherwise the index of the final entry, with every other entry before it |
| Menus.Items | kommonextensions/src/main/java/com/ivianuu/kommonextensions/MenuExt.kt:35 | `items()` lists every item, in index order |
| Menus.IndexOf | kommonextensions/src/main/java/com/ivianuu/kommonextensions/MenuExt.kt:31 | the least index holding the item, or -1 exactly when no index does |
| Menus.Contains | kommonextensions/src/main/java/com/ivianuu/kommonextensions/MenuExt.kt:33 | `contains(item)` holds iff the item is in the menu |
| Menus.GetIndexOfRoundTrip | kommonextensions/src/main/java/com/ivianuu/kommonextensions/MenuExt.kt:29-31 | for a contained item, `get(get(item))` is that item |
| Menus.ForEach | kommonextensions/src/main/java/com/ivianuu/kommonextensions/MenuExt.kt:26 | `forEach` leaves the state of the action applied to each item in index order, and the initial state for an empty menu |
| Menus.ForEachIndexed | kommonextensions/src/main/java/com/ivianuu/kommonextensions/MenuExt.kt:27 | `forEachIndexed` leaves the state of the action applied to each (index, item) pair in index order, and the initial state for an empty menu |
| Menus.ForEachVisitsInOrder | kommonextensions/src/main/java/com/ivianuu/kommonextensions/MenuExt.kt:26 | `forEach` hands the action item 0, 1, … in order, each once |
| Menus.ForEachIndexedVisitsInOrder | kommonextensions/src/main/java/com/ivianuu/kommonextensions/MenuExt.kt:27 | `forEachIndexed` hands the action each (index, item) pair in ascending order |
| Sequences.IndexOfFirst | kommonextensions/src/main/java/com/ivianuu/kommonextensions/ViewGroupExt.kt:58 | the first index holding the element, or -1 exactly when it is absent |
| Sequences.DescendingIsReverse | kommonextensions/src/main/java/com/ivianuu/kommonextensions/CollectionExt.kt:42-48 | counting down from `size - 1` visits the indices of counting up, in reverse |
| Collections.ForEachByIndex | kommonextensions/src/main/java/com/ivianuu/kommonextensions/CollectionExt.kt:22-27 | visits indices 0 … size-1 in ascending order, and the final state is the action folded over the list in order |
| Collections.ForEachWithIndex | kommonextensions/src/main/java/com/ivianuu/kommonextensions/CollectionExt.kt:32-37 | visits indices in ascending order, passing (i, get(i)) each time |
| Collections.ForEachReversedByIndex | kommonextensions/src/main/java/com/ivianuu/kommonextensions/CollectionExt.kt:42-48 | visits size-1 down to 0, and the final state is the action folded over the reversed list; an empty list is never visited |
| Collections.ForEachReversedWithIndex | kommonextensions/src/main/java/com/ivianuu/kommonextensions/CollectionExt.kt:53-59 | visits indices in descending order, passing (i, get(i)) each time |
| Collections.VisitOrders | kommonextensions/src/main/java/com/ivianuu/kommonextensions/CollectionExt.kt:22-48 | the forward loop sees exactly the list and the backward loop exactly its reverse |
| ViewGroups.ViewGroup.GetChildAt | kommonextensions/src/main/java/com/ivianuu/kommonextensions/ViewGroupExt.kt:53 | `get(index)` is the child at that position, or null outside `0 until childCount` |
| ViewGroups.ViewGroup.IndexOfChild | kommonextensions/src/main/java/com/ivianuu/kommonextensions/ViewGroupExt.kt:58 | `get(child)` is the first position holding the child, or -1 exactly when it is not a child |
| ViewGroups.ViewGroup.Contains | kommonextensions/src/main/java/com/ivianuu/kommonextensions/ViewGroupExt.kt:73 | `contains(child)` holds iff some position holds the child |
| ViewGroups.ViewGroup.PlusAssign | kommonextensions/src/main/java/com/ivianuu/kommonextensions/ViewGroupExt.kt:63 | `+=` appends a new child after the existing children; a view that is already a child makes `addView` throw IllegalStateException and the children stay as they were, so the children never hold a view twice |
| ViewGroups.ViewGroup.MinusAssign | kommonextensions/src/main/java/com/ivianuu/kommonextensions/ViewGroupExt.kt:68 | `-=` removes the child from its position, keeping the others in order; a non-child changes nothing; children without repeats stay so and no longer hold the child |
| ViewGroups.ViewGroup.ForEach | kommonextensions/src/main/java/com/ivianuu/kommonextensions/ViewGroupExt.kt:35-39 | calls the function on children 0 … childCount-1 in order, each once |
| ViewGroups.ViewGroup.ForEachIndexed | kommonextensions/src/main/java/com/ivianuu/kommonextensions/ViewGroupExt.kt:44-48 | calls the function with each index and the child at that index, in ascending order |
| ViewGroups.ViewGroup.Children | kommonextensions/src/main/java/com/ivianuu/kommonextensions/ViewGroupExt.kt:78-80 | `children()` returns an `Iterable` whose `iterator()` makes a fresh iterator; the model merges the two steps into one call that yields a new iterator over this group at position 0 |
| ViewGroups.ChildIterator.HasNext | kommonextensions/src/main/java/com/ivianuu/kommonextensions/ViewGroupExt.kt:81 | from a valid position, `hasNext()` holds exactly when `next()` would return a child rather than null |
| ViewGroups.ChildIterator.Next | kommonextensions/src/main/java/com/ivianuu/kommonextensions/ViewGroupExt.kt:82 | `next()` returns the child at the current position and advances the position by exactly one |
| ViewGroups.Drain | kommonextensions/src/main/java/com/ivianuu/kommonextensions/ViewGroupExt.kt:78-84 | iterating to the end yields the children from the iterator's position onwards, in order, and exhausts it |
| ViewGroups.ChildrenMatchesForEach | kommonextensions/src/main/java/com/ivianuu/kommonextensions/ViewGroupExt.kt:35-84 | exhausting `children()` yields the same children in the same order as `forEach` |
| Views.View.SetVisible | kommonextensions/src/main/java/com/ivianuu/kommonextensions/ViewExt.kt:27-29 | visibility becomes VISIBLE; nothing else changes |
| Views.View.SetInvisible | kommonextensions/src/main/java/com/ivianuu/kommonextensions/ViewExt.kt:34-36 | visibility becomes INVISIBLE; nothing else changes |
| Views.View.SetGone | kommonextensions/src/main/java/com/ivianuu/kommonextensions/ViewExt.kt:41-43 | visibility becomes GONE; nothing else changes |
| Views.View.SetVisibleIf | kommonextensions/src/main/java/com/ivianuu/kommonextensions/ViewExt.kt:48-50 | the view is visible iff the argument is true and gone otherwise, never invisible |
| Views.View.SetVisibleWhen | kommonextensions/src/main/java/com/ivianuu/kommonextensions/ViewExt.kt:55 | visible when the predicate answers true, gone otherwise |
| Views.View.IsVisible | kommonextensions/src/main/java/com/ivianuu/kommonextensions/ViewExt.kt:60 | a visible view is neither invisible nor gone |
| Views.View.IsInvisible | kommonextensions/src/main/java/com/ivianuu/kommonextensions/ViewExt.kt:65-70 | an invisible view is not gone, so at most one of the three predicates holds |
| Views.View.IsGone | kommonextensions/src/main/java/com/ivianuu/kommonextensions/ViewExt.kt:70 | a gone view has neither the VISIBLE nor the INVISIBLE value |
| Views.View.SetPaddingLeft | kommonextensions/src/main/java/com/ivianuu/kommonextensions/ViewExt.kt:75 | only the left padding changes |
| Views.View.SetPaddingRight | kommonextensions/src/main/java/com/ivianuu/kommonextensions/ViewExt.kt:80 | only the right padding changes |
| Views.View.SetPaddingTop | kommonextensions/src/main/java/com/ivianuu/kommonextensions/ViewExt.kt:85 | only the top padding changes |
| Views.View.SetPaddingBottom | kommonextensions/src/main/java/com/ivianuu/kommonextensions/ViewExt.kt:90 | only the bottom padding changes |
| Views.View.SetPaddingStart | kommonextensions/src/main/java/com/ivianuu/kommonextensions/ViewExt.kt:93 | the start padding takes the value; end, top, bottom, visibility and layout params are kept |
| Views.View.SetPaddingEnd | kommonextensions/src/main/java/com/ivianuu/kommonextensions/ViewExt.kt:96 | the end padding takes the value; start, top, bottom, visibility and layout params are kept |
| Views.View.SetAllPadding | kommonextensions/src/main/java/com/ivianuu/kommonextensions/ViewExt.kt:101-103 | all four paddings become the value |
| Views.View.SetOptionalPadding | kommonextensions/src/main/java/com/ivianuu/kommonextensions/ViewExt.kt:108-113 | each given side takes its value and each omitted side keeps its padding; with no arguments nothing changes |
| Views.View.SetOptionalRelativePadding | kommonextensions/src/main/java/com/ivianuu/kommonextensions/ViewExt.kt:118-124 | the same for start, top, end and bottom, resolved by layout direction |
| Views.View.MarginParams | kommonextensions/src/main/java/com/ivianuu/kommonextensions/ViewExt.kt:130 | the cast succeeds iff the params are null or margin params, and then yields them unchanged |
| Views.View.Margin | kommonextensions/src/main/java/com/ivianuu/kommonextensions/ViewExt.kt:129-168 | a margin getter reads 0 without params and the margin of margin params; for other params the cast throws |
| Views.View.SetMargin | kommonextensions/src/main/java/com/ivianuu/kommonextensions/ViewExt.kt:129-170 | a margin setter writes margin params, does nothing without params, and throws before writing for other params; the view and the size are untouched |
| Views.View.SetOptionalMargin | kommonextensions/src/main/java/com/ivianuu/kommonextensions/ViewExt.kt:189-197 | the given margins are written and the omitted ones keep their values; without params nothing happens; other params throw and nothing changes |
| Views.View.SetOptionalRelativeMargin | kommonextensions/src/main/java/com/ivianuu/kommonextensions/ViewExt.kt:202-211 | the same for start, top, end and bottom |
| Views.View.SetAllMargin | kommonextensions/src/main/java/com/ivianuu/kommonextensions/ViewExt.kt:175-177 | left, top, right and bottom margins all become the value and the layout size is kept; without params nothing happens; other params throw ClassCastException and are left untouched |
| Views.View.SetAllRelativeMargin | kommonextensions/src/main/java/com/ivianuu/kommonextensions/ViewExt.kt:182-184 | start, top, end and bottom margins all become the value and the layout size is kept, with the same error cases as `setAllMargin` |
| Views.View.Resize | kommonextensions/src/main/java/com/ivianuu/kommonextensions/ViewExt.kt:230-238 | with params, their width and height become the given ones, an omitted side taking the measured size; without params nothing happens |
| Views.View.SetHeight | kommonextensions/src/main/java/com/ivianuu/kommonextensions/ViewExt.kt:216-218 | the layout height becomes the value and the layout width becomes the measured width |
| Views.View.SetWidth | kommonextensions/src/main/java/com/ivianuu/kommonextensions/ViewExt.kt:223-225 | the layout width becomes the value and the layout height becomes the measured height |
| TextViews.Slot | kommonextensions/src/main/java/com/ivianuu/kommonextensions/TextViewExt.kt:26-33 | a compound drawable getter reads its slot, or null when the array is empty |
| TextViews.TextView.SetOptionalCompoundDrawables | kommonextensions/src/main/java/com/ivianuu/kommonextensions/TextViewExt.kt:102-107 | the absolute array always gets four slots: each given slot takes its drawable and each omitted slot keeps its current one; with no arguments a four-slot array is unchanged; the relative array is untouched |
| TextViews.TextView.SetOptionalRelativeCompoundDrawables | kommonextensions/src/main/java/com/ivianuu/kommonextensions/TextViewExt.kt:109-115 | the new relative array is start, top, end and bottom, each given or its default: the current start and end, and the absolute array's top and bottom; the absolute array is untouched |
| TextViews.TextView.SetLeft | kommonextensions/src/main/java/com/ivianuu/kommonextensions/TextViewExt.kt:34-36 | the left slot takes the value; top, right and bottom keep their drawables |
| TextViews.TextView.SetTop | kommonextensions/src/main/java/com/ivianuu/kommonextensions/TextViewExt.kt:60-62 | only the top slot changes |
| TextViews.TextView.SetRight | kommonextensions/src/main/java/com/ivianuu/kommonextensions/TextViewExt.kt:72-74 | only the right slot changes |
| TextViews.TextView.SetBottom | kommonextensions/src/main/java/com/ivianuu/kommonextensions/TextViewExt.kt:98-100 | only the bottom slot changes |
| TextViews.TextView.SetStart | kommonextensions/src/main/java/com/ivianuu/kommonextensions/TextViewExt.kt:47-50 | the relative array becomes the value, the absolute top, the old end and the absolute bottom; the absolute array is untouched |
| TextViews.TextView.SetEnd | kommonextensions/src/main/java/com/ivianuu/kommonextensions/TextViewExt.kt:85-88 | the relative array becomes the old start, the absolute top, the value and the absolute bottom; the absolute array is untouched |
| Strings.PadToMd5Length | kommonextensions/src/main/java/com/ivianuu/kommonextensions/StringExt.kt:37-40 | the result is max(0, 32 - length) zeros followed by the hex text; its length is max(32, length); text of 32 or more is returned unchanged |
| Strings.PaddingIsLeadingZeros | kommonextensions/src/main/java/com/ivianuu/kommonextensions/StringExt.kt:40 | the padded text ends with the unpadded hex and every character in front of it is '0' |
| Strings.Md5 | kommonextensions/src/main/java/com/ivianuu/kommonextensions/StringExt.kt:32-46 | "" when the platform has no MD5; otherwise the padded hex, 32 characters long for a digest of at most 32 hex digits |
| Device.IsPortrait | kommonextensions/src/main/java/com/ivianuu/kommonextensions/ContextExt.kt:244 | of the four rotations, exactly 0 and 180 degrees are portrait |
| Device.IsLandscape | kommonextensions/src/main/java/com/ivianuu/kommonextensions/ContextExt.kt:249-252 | landscape exactly for a valid rotation that is an odd number of quarter turns (90 or 270 degrees) |
| Device.RotationClassification | kommonextensions/src/main/java/com/ivianuu/kommonextensions/DisplayExt.kt:35-40 | of the four rotations, 0 and 180 are portrait and 90 and 270 landscape, each exactly one of the two |
| Device.IsTablet | kommonextensions/src/main/java/com/ivianuu/kommonextensions/ContextExt.kt:303-304 | only the size bits of the screen layout decide; a large layout is a tablet and a normal one is not |
| Device.TabletBySizeClass | kommonextensions/src/main/java/com/ivianuu/kommonextensions/ContextExt.kt:303-304 | only the size bits decide: large and extra-large layouts are tablets, normal ones are not |
| Device.HasNavigationBar | kommonextensions/src/main/java/com/ivianuu/kommonextensions/ContextExt.kt:309-312 | false for an identifier at most 0, without reading the resource; otherwise the resource's boolean |
| Device.IsConnected | kommonextensions/src/main/java/com/ivianuu/kommonextensions/ContextExt.kt:320-323 | connected iff there is an active network and it is connected |
| Device.IsConnectedWifi | kommonextensions/src/main/java/com/ivianuu/kommonextensions/ContextExt.kt:329-332 | connected to wifi iff there is an active network, it is connected, and its type is WIFI |
| Device.IsConnectedMobile | kommonextensions/src/main/java/com/ivianuu/kommonextensions/ContextExt.kt:338-341 | connected to mobile iff there is an active network, it is connected, and its type is MOBILE |
| Device.ConnectivityRelations | kommonextensions/src/main/java/com/ivianuu/kommonextensions/ContextExt.kt:320-341 | without an active network all three are false; wifi and mobile imply connected and exclude each other |
| Device.IsCharging | kommonextensions/src/main/java/com/ivianuu/kommonextensions/ContextExt.kt:360-368 | false without the sticky intent; otherwise true iff the plug type (-1 when missing) is AC, USB, or, from API 17, WIRELESS |
| Device.ChargingEdgeCases | kommonextensions/src/main/java/com/ivianuu/kommonextensions/ContextExt.kt:364-367 | a missing plug extra is never charging, and wireless counts only from API 17 |
| Device.BatteryLevel | kommonextensions/src/main/java/com/ivianuu/kommonextensions/ContextExt.kt:374-383 | -1 without an intent or when level or scale is -1; otherwise the percentage of the two extras |
| Device.BatteryLevelNeedsBothExtras | kommonextensions/src/main/java/com/ivianuu/kommonextensions/ContextExt.kt:377-381 | a missing level or scale extra always gives -1 |
| Drawables.NewBitmapSize | kommonextensions/src/main/java/com/ivianuu/kommonextensions/DrawableExt.kt:38-42 | 1 x 1 when either intrinsic side is not positive, the intrinsic size otherwise; never smaller than 1 x 1 |
| Drawables.Drawable.ToBitmap | kommonextensions/src/main/java/com/ivianuu/kommonextensions/DrawableExt.kt:29-48 | a bitmap drawable with a bitmap returns that bitmap and changes nothing; otherwise a new bitmap of `NewBitmapSize`, bounds set to (0, 0, width, height) and drawn into |
| Drawables.Drawable.Tint | kommonextensions/src/main/java/com/ivianuu/kommonextensions/DrawableExt.kt:53-60 | the colour filter is always set (mode defaulting to SRC_IN), and the drawable is mutated only when `mutate` (default true) is true |

## Left out

- Colors.Shift: the HSV round trip (`colorToHSV`, value times the factor, `HSVToColor`) is floating point and is a parameter `scaleValue`. So `darken` and `lighten` are not shown to darken or lighten.
- Colors.WithAlpha: the float-to-Int conversion `(alpha * 255).toInt()` is a parameter `scaled`. Only the clamping and packing that follow are modelled.
- Colors.IsDark: `isLight` is computed over exact reals, not `Double`. Rounding at the 0.4 threshold is not modelled.
- Colors.Darken: the factors `0.9f` and `1.1f` are taken as exact reals.
- Device.BatteryLevel: the percentage `(level / scale * 100).toInt()` is float arithmetic and is a parameter `percent`.
- Menus.Get: requires an index inside the menu, because the platform's `getItem` throws outside it.
- TextViews.TextView.SetOptionalCompoundDrawables: the two slot arrays are independent stored values. The platform rule that relative drawables take precedence over absolute ones is not modelled, nor is the way each getter reflects the other array.
- ViewGroups.ViewGroup.PlusAssign: only a view that is already a child of this group is refused. A view whose parent is another group also makes `addView` throw, but the model keeps no parent links between groups.
- TextViews.TextView.SetStart: the relative top and bottom take the absolute array's top and bottom, because those are the defaults the setter passes. On the platform, when both arrays are set, the relative drawables take precedence over the absolute ones. The model keeps the two arrays independent, so it does not promise that assigning the start keeps the relative top and bottom.
- TextViews.TextView.SetEnd: the same as for `SetStart`. The relative top and bottom come from the absolute array, and keeping them is not promised.
- Collections.ForEachByIndex: the action is a pure function of a state and an element, so an action that changes the list being iterated cannot be expressed. The source fixes the bound once and reads `get(i)` on each step, so a shrinking list would make `get(i)` throw IndexOutOfBoundsException. The same holds for `ForEachWithIndex`, `ForEachReversedByIndex` and `ForEachReversedWithIndex`.
- ViewGroups.ViewGroup.ForEach: the function cannot add or remove children while the loop runs. The source fixes `childCount` once and reads `getChildAt(i)` on each step, so removing children would hand the function null. The same holds for `ForEachIndexed`.
- Drawables.Drawable.Tint: the drawable's constant state, which it may share with other drawables, is not modelled. The source sets the colour filter before `mutate()`, so on a shared drawable the filter also reaches the other sharers. The model keeps only a `mutated` flag.
- Drawables.Drawable.ToBitmap: the `config` argument (default `Bitmap.Config.ARGB_8888`) is not modelled; a bitmap is only its width and height.
- Views.View.SetOptionalRelativeMargin: start and end margins are stored as given. Their resolution against left and right by layout direction is the platform's and is not modelled.
- `adjustAlpha`, `blendWith` and `toColorInt` (`ColorExt.kt`, `IntExt.kt`): floating point or string parsing.
- The 29 unconditional lines of the service table: each line is shown present on every sdk. Their number is not stated as a count.
- `systemService()` (`SystemServiceExt.kt:129-131`): it only calls `getSystemServiceCompat`. The platform's own lookups from API 23 are parameters (by class, or `getSystemServiceName`).
- The per-service getters of `SystemServices.kt` and `SystemServicesExt.kt`: single casts.
- The MD5 digest and its `BigInteger` hex text: the hex text is an input of `Md5`.
- The `Patterns` checks of `StringExt.kt` and `CharSequenceExt.kt`: regular expressions of the platform.
- Canvas drawing in `toBitmap()`: recorded only as the bitmap drawn into.
- `isScreenOn`, `getRotation` and the screen-size queries of `ContextExt.kt` and `DisplayExt.kt`: platform reads with no logic of their own.
- The `dp`/`sp` conversions: floating point.
- The keyboard, `startActivity` and finishing helpers of `ActivityExt.kt`, and the `inflate` helper of `ViewGroupExt.kt`: platform calls.
- The resource and theme lookups (`Resources.kt`, `AttrExt.kt`) and `BitmapExt.kt`: wrappers around the platform, or floating point.
- `MathExt.kt`, `ToastExt.kt`, `RecyclerViewExt.kt`, `LifecycleExt.kt`, `FragmentExt.kt`, `SupportFragmentExt.kt`, `SharedPreferencesExt.kt`, `Classes.kt` and the sample app: UI, asynchronous, reflective or floating-point code.
- Integer widths of views, paddings and margins: 32-bit `Int` values are unbounded integers here, because the helpers only store them.
