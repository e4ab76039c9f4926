/** Device queries that are decisions over values the platform reports:
    orientation from the display rotation, tablet from the screen layout
    word, navigation bar from a resource, connectivity from the active
    network, and charging and battery level from the sticky battery intent. */
module Device {
  import opened Wrappers

  // Surface.ROTATION_*
  const ROTATION_0 := 0
  const ROTATION_90 := 1
  const ROTATION_180 := 2
  const ROTATION_270 := 3

  /** `isLandscape()`: the display is turned by 90 or 270 degrees, that is,
      by an odd number of quarter turns. */
  predicate IsLandscape(rotation: int)
    ensures IsLandscape(rotation) <==> ROTATION_0 <= rotation <= ROTATION_270 && rotation % 2 == 1
  {
    rotation == ROTATION_90 || rotation == ROTATION_270
  }

  /** `isPortrait()`: `!isLandscape()`. */
  predicate IsPortrait(rotation: int)
    ensures ROTATION_0 <= rotation <= ROTATION_270 ==>
      (IsPortrait(rotation) <==> rotation == ROTATION_0 || rotation == ROTATION_180)
  {
    !IsLandscape(rotation)
  }

  /** Of the four rotations, 0 and 180 degrees are portrait and 90 and 270 are
      landscape; every rotation is exactly one of the two. */
  lemma RotationClassification(rotation: int)
    requires ROTATION_0 <= rotation <= ROTATION_270
    ensures IsPortrait(rotation) <==> rotation == ROTATION_0 || rotation == ROTATION_180
    ensures IsLandscape(rotation) <==> rotation == ROTATION_90 || rotation == ROTATION_270
    ensures IsPortrait(rotation) != IsLandscape(rotation)
  {
  }

  // Configuration.SCREENLAYOUT_SIZE_*
  const SCREENLAYOUT_SIZE_MASK: bv32 := 0x0f
  const SCREENLAYOUT_SIZE_NORMAL: bv32 := 0x02
  const SCREENLAYOUT_SIZE_LARGE: bv32 := 0x03
  const SCREENLAYOUT_SIZE_XLARGE: bv32 := 0x04

  /** `isTablet()`: `screenLayout and SCREENLAYOUT_SIZE_MASK >= SCREENLAYOUT_SIZE_LARGE`,
      where the infix `and` binds tighter than the comparison. */
  predicate IsTablet(screenLayout: bv32)
    ensures IsTablet(screenLayout) <==> IsTablet(screenLayout & SCREENLAYOUT_SIZE_MASK)
    ensures screenLayout & SCREENLAYOUT_SIZE_MASK == SCREENLAYOUT_SIZE_LARGE ==> IsTablet(screenLayout)
    ensures screenLayout & SCREENLAYOUT_SIZE_MASK == SCREENLAYOUT_SIZE_NORMAL ==> !IsTablet(screenLayout)
  {
    screenLayout & SCREENLAYOUT_SIZE_MASK >= SCREENLAYOUT_SIZE_LARGE
  }

  /** Only the size bits decide: large and extra-large screens are tablets,
      normal ones are not, whatever the other layout bits say. */
  lemma TabletBySizeClass(screenLayout: bv32, otherBits: bv32)
    requires otherBits & SCREENLAYOUT_SIZE_MASK == 0
    ensures IsTablet(screenLayout | otherBits) == IsTablet(screenLayout)
    ensures IsTablet(SCREENLAYOUT_SIZE_LARGE | otherBits) && IsTablet(SCREENLAYOUT_SIZE_XLARGE | otherBits)
    ensures !IsTablet(SCREENLAYOUT_SIZE_NORMAL | otherBits)
  {
  }

  /** `hasNavigationBar()`: the identifier of `config_showNavigationBar` must be
      positive before the boolean resource is read; `resourceBool` is the
      platform's lookup, defined only on positive identifiers. */
  predicate HasNavigationBar(id: int, resourceBool: int --> bool)
    requires id > 0 ==> resourceBool.requires(id)
    ensures id <= 0 ==> !HasNavigationBar(id, resourceBool)
    ensures id > 0 ==> (HasNavigationBar(id, resourceBool) <==> resourceBool(id))
  {
    id > 0 && resourceBool(id)
  }

  // ConnectivityManager.TYPE_*
  const TYPE_MOBILE := 0
  const TYPE_WIFI := 1

  /** The fields of `NetworkInfo` the helpers read. */
  datatype NetworkInfo = NetworkInfo(isConnected: bool, networkType: int)

  /** `isConnected()`: `info?.isConnected ?: false`. */
  predicate IsConnected(active: Option<NetworkInfo>)
    ensures IsConnected(active) <==> active.Some? && active.value.isConnected
  {
    match active
    case None => false
    case Some(info) => info.isConnected
  }

  /** `isConnectedWifi()`: `info?.isConnected ?: false && info?.type == TYPE_WIFI`,
      which groups as `(info?.isConnected ?: false) && (info?.type == TYPE_WIFI)`. */
  predicate IsConnectedWifi(active: Option<NetworkInfo>)
    ensures IsConnectedWifi(active) <==>
      active.Some? && active.value.isConnected && active.value.networkType == TYPE_WIFI
  {
    IsConnected(active) && active.Some? && active.value.networkType == TYPE_WIFI
  }

  /** `isConnectedMobile()`, grouped the same way. */
  predicate IsConnectedMobile(active: Option<NetworkInfo>)
    ensures IsConnectedMobile(active) <==>
      active.Some? && active.value.isConnected && active.value.networkType == TYPE_MOBILE
  {
    IsConnected(active) && active.Some? && active.value.networkType == TYPE_MOBILE
  }

  /** Without an active network nothing is connected; wifi and mobile each
      imply connected and never hold together. */
  lemma ConnectivityRelations(active: Option<NetworkInfo>)
    ensures active.None? ==> !IsConnected(active) && !IsConnectedWifi(active) && !IsConnectedMobile(active)
    ensures IsConnectedWifi(active) ==> IsConnected(active)
    ensures IsConnectedMobile(active) ==> IsConnected(active)
    ensures !(IsConnectedWifi(active) && IsConnectedMobile(active))
  {
  }

  // BatteryManager extras and plug types
  const EXTRA_PLUGGED := "plugged"
  const EXTRA_LEVEL := "level"
  const EXTRA_SCALE := "scale"
  const BATTERY_PLUGGED_AC := 1
  const BATTERY_PLUGGED_USB := 2
  const BATTERY_PLUGGED_WIRELESS := 4
  const JELLY_BEAN_MR1 := 17

  /** The extras of the sticky `ACTION_BATTERY_CHANGED` intent. */
  type Extras = map<string, int>

  /** `intent.getIntExtra(name, defaultValue)` */
  function IntExtra(extras: Extras, name: string, defaultValue: int): int {
    if name in extras then extras[name] else defaultValue
  }

  /** `isCharging()`: no sticky intent means not charging; otherwise the plug
      type (-1 when missing) must be AC or USB, or wireless from API 17 on. */
  predicate IsCharging(sdk: int, intent: Option<Extras>)
    ensures intent.None? ==> !IsCharging(sdk, intent)
    ensures intent.Some? ==>
      (IsCharging(sdk, intent) <==>
        var plugged := IntExtra(intent.value, EXTRA_PLUGGED, -1);
        plugged == BATTERY_PLUGGED_AC || plugged == BATTERY_PLUGGED_USB
        || (sdk >= JELLY_BEAN_MR1 && plugged == BATTERY_PLUGGED_WIRELESS))
  {
    match intent
    case None => false
    case Some(extras) =>
      var plugged := IntExtra(extras, EXTRA_PLUGGED, -1);
      plugged == BATTERY_PLUGGED_AC
      || plugged == BATTERY_PLUGGED_USB
      || (sdk >= JELLY_BEAN_MR1 && plugged == BATTERY_PLUGGED_WIRELESS)
  }

  /** A missing plug extra never reads as charging, and wireless charging is
      only recognised from API 17 on. */
  lemma ChargingEdgeCases(sdk: int, extras: Extras)
    ensures EXTRA_PLUGGED !in extras ==> !IsCharging(sdk, Some(extras))
    ensures IntExtra(extras, EXTRA_PLUGGED, -1) == BATTERY_PLUGGED_WIRELESS ==>
      (IsCharging(sdk, Some(extras)) <==> sdk >= JELLY_BEAN_MR1)
  {
  }

  /** `getBatteryLevel()`: -1 when there is no sticky intent or when the level
      or the scale is -1 (a missing extra reads as -1); otherwise the
      percentage, which `percent(level, scale)` stands for. */
  function BatteryLevel(intent: Option<Extras>, percent: (int, int) -> int): (level: int)
    ensures intent.None? ==> level == -1
    ensures intent.Some? && (IntExtra(intent.value, EXTRA_LEVEL, -1) == -1 || IntExtra(intent.value, EXTRA_SCALE, -1) == -1) ==>
      level == -1
    ensures intent.Some? && IntExtra(intent.value, EXTRA_LEVEL, -1) != -1 && IntExtra(intent.value, EXTRA_SCALE, -1) != -1 ==>
      level == percent(intent.value[EXTRA_LEVEL], intent.value[EXTRA_SCALE])
  {
    match intent
    case None => -1
    case Some(extras) =>
      var level := IntExtra(extras, EXTRA_LEVEL, -1);
      var scale := IntExtra(extras, EXTRA_SCALE, -1);
      if level == -1 || scale == -1 then -1 else percent(level, scale)
  }

  /** Both extras must be present for a percentage to be computed. */
  lemma BatteryLevelNeedsBothExtras(extras: Extras, percent: (int, int) -> int)
    requires EXTRA_LEVEL !in extras || EXTRA_SCALE !in extras
    ensures BatteryLevel(Some(extras), percent) == -1
  {
  }
}
