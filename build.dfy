/** Platform-version predicates and version-guarded execution.

    `currentSdk` is the value of `Build.VERSION.SDK_INT`, read once when the
    library is loaded; here it is a parameter of every member. An action passed
    to a guard (a Kotlin `() -> Unit`) is a transformer of some state `S`: a guard
    either applies it or returns the state untouched. */
module Build {

  // Build.VERSION_CODES of the releases the library names.
  const ICE_CREAM_SANDWICH_MR1 := 15
  const JELLY_BEAN := 16
  const JELLY_BEAN_MR1 := 17
  const JELLY_BEAN_MR2 := 18
  const KITKAT := 19
  const KITKAT_WATCH := 20
  const LOLLIPOP := 21
  const LOLLIPOP_MR1 := 22
  const M := 23
  const N := 24
  const N_MR1 := 25
  const O := 26

  /** The releases that have an `isX` flag and an `onX` guard, oldest first. */
  datatype Release =
    | IceCreamSandwichMr1 | JellyBean | JellyBeanMr1 | JellyBeanMr2
    | Kitkat | KitkatWatch | Lollipop | LollipopMr1
    | Marshmallow | Nougat | NougatMr1 | Oreo | OreoMr1

  /** Position of a release in the list above. */
  function Rank(r: Release): nat {
    match r
    case IceCreamSandwichMr1 => 0
    case JellyBean => 1
    case JellyBeanMr1 => 2
    case JellyBeanMr2 => 3
    case Kitkat => 4
    case KitkatWatch => 5
    case Lollipop => 6
    case LollipopMr1 => 7
    case Marshmallow => 8
    case Nougat => 9
    case NougatMr1 => 10
    case Oreo => 11
    case OreoMr1 => 12
  }

  /** The least sdk on which the release's flag holds. `isOreoMr1` is written
      as `currentSdk > O`, which on integers is `currentSdk >= O + 1`. */
  function MinSdk(r: Release): (sdk: int)
    ensures sdk == ICE_CREAM_SANDWICH_MR1 + Rank(r)
  {
    match r
    case IceCreamSandwichMr1 => ICE_CREAM_SANDWICH_MR1
    case JellyBean => JELLY_BEAN
    case JellyBeanMr1 => JELLY_BEAN_MR1
    case JellyBeanMr2 => JELLY_BEAN_MR2
    case Kitkat => KITKAT
    case KitkatWatch => KITKAT_WATCH
    case Lollipop => LOLLIPOP
    case LollipopMr1 => LOLLIPOP_MR1
    case Marshmallow => M
    case Nougat => N
    case NougatMr1 => N_MR1
    case Oreo => O
    case OreoMr1 => O + 1
  }

  /** The flags `isIceCreamSandwichMr1` … `isOreoMr1`, each a comparison of
      `currentSdk` with its version code. */
  predicate IsRelease(currentSdk: int, r: Release)
    ensures IsRelease(currentSdk, r) <==> currentSdk >= MinSdk(r)
  {
    match r
    case IceCreamSandwichMr1 => currentSdk >= ICE_CREAM_SANDWICH_MR1
    case JellyBean => currentSdk >= JELLY_BEAN
    case JellyBeanMr1 => currentSdk >= JELLY_BEAN_MR1
    case JellyBeanMr2 => currentSdk >= JELLY_BEAN_MR2
    case Kitkat => currentSdk >= KITKAT
    case KitkatWatch => currentSdk >= KITKAT_WATCH
    case Lollipop => currentSdk >= LOLLIPOP
    case LollipopMr1 => currentSdk >= LOLLIPOP_MR1
    case Marshmallow => currentSdk >= M
    case Nougat => currentSdk >= N
    case NougatMr1 => currentSdk >= N_MR1
    case Oreo => currentSdk >= O
    case OreoMr1 => currentSdk > O
  }

  /** The flags form a chain: a later release's flag implies every earlier one's. */
  lemma ReleaseChain(currentSdk: int, older: Release, newer: Release)
    requires Rank(older) <= Rank(newer)
    requires IsRelease(currentSdk, newer)
    ensures IsRelease(currentSdk, older)
  {
  }

  /** A flag, once true, stays true on every later platform version. */
  lemma ReleaseMonotoneInSdk(sdk1: int, sdk2: int, r: Release)
    requires sdk1 <= sdk2
    requires IsRelease(sdk1, r)
    ensures IsRelease(sdk2, r)
  {
  }

  /** `aboveSdk(sdk, func)`: runs `func` iff `currentSdk > sdk`. */
  function AboveSdk<S>(currentSdk: int, sdk: int, func: S -> S, s: S): (r: S)
    ensures currentSdk > sdk ==> r == func(s)
    ensures currentSdk <= sdk ==> r == s
  {
    if currentSdk > sdk then func(s) else s
  }

  /** `onSdk(sdk, func)`: runs `func` iff `currentSdk >= sdk`. */
  function OnSdk<S>(currentSdk: int, sdk: int, func: S -> S, s: S): (r: S)
    ensures currentSdk >= sdk ==> r == func(s)
    ensures currentSdk < sdk ==> r == s
  {
    if currentSdk >= sdk then func(s) else s
  }

  /** `belowSdk(sdk, func)`: runs `func` iff `currentSdk < sdk`. */
  function BelowSdk<S>(currentSdk: int, sdk: int, func: S -> S, s: S): (r: S)
    ensures currentSdk < sdk ==> r == func(s)
    ensures currentSdk >= sdk ==> r == s
  {
    if currentSdk < sdk then func(s) else s
  }

  /** The guards `onIceCreamSandwichMr1(func)` … `onOreoMr1(func)`: run `func`
      iff the release's flag holds. */
  function OnRelease<S>(currentSdk: int, release: Release, func: S -> S, s: S): (r: S)
    ensures IsRelease(currentSdk, release) ==> r == func(s)
    ensures !IsRelease(currentSdk, release) ==> r == s
  {
    if IsRelease(currentSdk, release) then func(s) else s
  }

  /** `onSdk(sdk)` behaves as `aboveSdk(sdk - 1)`. */
  lemma OnSdkIsAboveSdkMinusOne<S>(currentSdk: int, sdk: int, func: S -> S, s: S)
    ensures OnSdk(currentSdk, sdk, func, s) == AboveSdk(currentSdk, sdk - 1, func, s)
  {
  }

  /** For the same `sdk`, `onSdk(sdk, f)` followed by `belowSdk(sdk, g)` runs
      exactly one of the two actions. */
  lemma OnSdkAndBelowSdkRunExactlyOne<S>(currentSdk: int, sdk: int, f: S -> S, g: S -> S, s: S)
    ensures BelowSdk(currentSdk, sdk, g, OnSdk(currentSdk, sdk, f, s))
            == (if currentSdk >= sdk then f(s) else g(s))
  {
  }

  /** Each `onX` guard is `onSdk` at the release's least sdk. */
  lemma OnReleaseIsOnSdk<S>(currentSdk: int, release: Release, func: S -> S, s: S)
    ensures OnRelease(currentSdk, release, func, s) == OnSdk(currentSdk, MinSdk(release), func, s)
  {
  }
}
