/** Looking up a system service by its manager class.

    From API 23 the platform maps a manager class to its service itself. Below
    that, the library consults its own table from manager class to service name
    (`Context.*_SERVICE`), filled once at load time: a group of entries is added
    only when the running sdk is strictly above the group's threshold, and the
    remaining entries are always added. */
module SystemServices {
  import opened Wrappers

  /** The `Context.*_SERVICE` constants the table stores. */
  datatype ServiceName =
    | TELEPHONY_SUBSCRIPTION_SERVICE | USAGE_STATS_SERVICE | APPWIDGET_SERVICE
    | BATTERY_SERVICE | CAMERA_SERVICE | JOB_SCHEDULER_SERVICE
    | LAUNCHER_APPS_SERVICE | MEDIA_PROJECTION_SERVICE | MEDIA_SESSION_SERVICE
    | RESTRICTIONS_SERVICE | TELECOM_SERVICE | TV_INPUT_SERVICE
    | APP_OPS_SERVICE | CAPTIONING_SERVICE | CONSUMER_IR_SERVICE
    | PRINT_SERVICE | BLUETOOTH_SERVICE | DISPLAY_SERVICE
    | USER_SERVICE | INPUT_SERVICE | MEDIA_ROUTER_SERVICE
    | NSD_SERVICE | ACCESSIBILITY_SERVICE | ACCOUNT_SERVICE
    | ACTIVITY_SERVICE | ALARM_SERVICE | AUDIO_SERVICE
    | CLIPBOARD_SERVICE | CONNECTIVITY_SERVICE | DEVICE_POLICY_SERVICE
    | DOWNLOAD_SERVICE | DROPBOX_SERVICE | INPUT_METHOD_SERVICE
    | KEYGUARD_SERVICE | LAYOUT_INFLATER_SERVICE | LOCATION_SERVICE
    | NFC_SERVICE | NOTIFICATION_SERVICE | POWER_SERVICE
    | SEARCH_SERVICE | SENSOR_SERVICE | STORAGE_SERVICE
    | TELEPHONY_SERVICE | TEXT_SERVICES_MANAGER_SERVICE | UI_MODE_SERVICE
    | USB_SERVICE | VIBRATOR_SERVICE | WALLPAPER_SERVICE
    | WIFI_P2P_SERVICE | WIFI_SERVICE | WINDOW_SERVICE

  /** The string each constant holds on the platform. */
  function Text(n: ServiceName): string {
    match n
    case TELEPHONY_SUBSCRIPTION_SERVICE => "telephony_subscription_service"
    case USAGE_STATS_SERVICE => "usagestats"
    case APPWIDGET_SERVICE => "appwidget"
    case BATTERY_SERVICE => "batterymanager"
    case CAMERA_SERVICE => "camera"
    case JOB_SCHEDULER_SERVICE => "jobscheduler"
    case LAUNCHER_APPS_SERVICE => "launcherapps"
    case MEDIA_PROJECTION_SERVICE => "media_projection"
    case MEDIA_SESSION_SERVICE => "media_session"
    case RESTRICTIONS_SERVICE => "restrictions"
    case TELECOM_SERVICE => "telecom"
    case TV_INPUT_SERVICE => "tv_input"
    case APP_OPS_SERVICE => "appops"
    case CAPTIONING_SERVICE => "captioning"
    case CONSUMER_IR_SERVICE => "consumer_ir"
    case PRINT_SERVICE => "print"
    case BLUETOOTH_SERVICE => "bluetooth"
    case DISPLAY_SERVICE => "display"
    case USER_SERVICE => "user"
    case INPUT_SERVICE => "input"
    case MEDIA_ROUTER_SERVICE => "media_router"
    case NSD_SERVICE => "servicediscovery"
    case ACCESSIBILITY_SERVICE => "accessibility"
    case ACCOUNT_SERVICE => "account"
    case ACTIVITY_SERVICE => "activity"
    case ALARM_SERVICE => "alarm"
    case AUDIO_SERVICE => "audio"
    case CLIPBOARD_SERVICE => "clipboard"
    case CONNECTIVITY_SERVICE => "connectivity"
    case DEVICE_POLICY_SERVICE => "device_policy"
    case DOWNLOAD_SERVICE => "download"
    case DROPBOX_SERVICE => "dropbox"
    case INPUT_METHOD_SERVICE => "input_method"
    case KEYGUARD_SERVICE => "keyguard"
    case LAYOUT_INFLATER_SERVICE => "layout_inflater"
    case LOCATION_SERVICE => "location"
    case NFC_SERVICE => "nfc"
    case NOTIFICATION_SERVICE => "notification"
    case POWER_SERVICE => "power"
    case SEARCH_SERVICE => "search"
    case SENSOR_SERVICE => "sensor"
    case STORAGE_SERVICE => "storage"
    case TELEPHONY_SERVICE => "phone"
    case TEXT_SERVICES_MANAGER_SERVICE => "textservices"
    case UI_MODE_SERVICE => "uimode"
    case USB_SERVICE => "usb"
    case VIBRATOR_SERVICE => "vibrator"
    case WALLPAPER_SERVICE => "wallpaper"
    case WIFI_P2P_SERVICE => "wifip2p"
    case WIFI_SERVICE => "wifi"
    case WINDOW_SERVICE => "window"
  }

  /** The class a caller asks a service for: every class that keys the table,
      `AccessibilityManager` (the manager an accessibility lookup actually
      returns), and any other class by name. */
  datatype ServiceClass =
    | SubscriptionManager | UsageStatsManager
    | AppWidgetManager | BatteryManager | CameraManager | JobScheduler | LauncherApps
    | MediaProjectionManager | MediaSessionManager | RestrictionsManager | TelecomManager | TvInputManager
    | AppOpsManager | CaptioningManager | ConsumerIrManager | PrintManager
    | BluetoothManager
    | DisplayManager | UserManager
    | InputManager | MediaRouter | NsdManager
    | AccessibilityService | AccountManager | ActivityManager | AlarmManager | AudioManager
    | ClipboardManager | ConnectivityManager | DevicePolicyManager | DownloadManager | DropBoxManager
    | InputMethodManager | KeyguardManager | LayoutInflater | LocationManager | NfcManager
    | NotificationManager | PowerManager | SearchManager | SensorManager | StorageManager
    | TelephonyManager | TextServicesManager | UiModeManager | UsbManager | Vibrator
    | WallpaperManager | WifiP2pManager | WifiManager | WindowManager
    | AccessibilityManager
    | OtherClass(qualifiedName: string)

  /** When a line of the table runs: on every sdk, or only when the sdk is
      strictly above the threshold of the `if` block it sits in. */
  datatype Guard = Always | Above(threshold: int)

  predicate Holds(g: Guard, sdk: int) {
    g.Always? || sdk > g.threshold
  }

  /** A line `this[X::class] = NAME` of the table, with its block's guard. */
  datatype Entry = Entry(guard: Guard, name: ServiceName)

  /** The line of the table that stores class `c`, if there is one. */
  function EntryFor(c: ServiceClass): Option<Entry> {
    match c
    case SubscriptionManager => Some(Entry(Above(22), TELEPHONY_SUBSCRIPTION_SERVICE))
    case UsageStatsManager => Some(Entry(Above(22), USAGE_STATS_SERVICE))
    case AppWidgetManager => Some(Entry(Above(21), APPWIDGET_SERVICE))
    case BatteryManager => Some(Entry(Above(21), BATTERY_SERVICE))
    case CameraManager => Some(Entry(Above(21), CAMERA_SERVICE))
    case JobScheduler => Some(Entry(Above(21), JOB_SCHEDULER_SERVICE))
    case LauncherApps => Some(Entry(Above(21), LAUNCHER_APPS_SERVICE))
    case MediaProjectionManager => Some(Entry(Above(21), MEDIA_PROJECTION_SERVICE))
    case MediaSessionManager => Some(Entry(Above(21), MEDIA_SESSION_SERVICE))
    case RestrictionsManager => Some(Entry(Above(21), RESTRICTIONS_SERVICE))
    case TelecomManager => Some(Entry(Above(21), TELECOM_SERVICE))
    case TvInputManager => Some(Entry(Above(21), TV_INPUT_SERVICE))
    case AppOpsManager => Some(Entry(Above(19), APP_OPS_SERVICE))
    case CaptioningManager => Some(Entry(Above(19), CAPTIONING_SERVICE))
    case ConsumerIrManager => Some(Entry(Above(19), CONSUMER_IR_SERVICE))
    case PrintManager => Some(Entry(Above(19), PRINT_SERVICE))
    case BluetoothManager => Some(Entry(Above(18), BLUETOOTH_SERVICE))
    case DisplayManager => Some(Entry(Above(17), DISPLAY_SERVICE))
    case UserManager => Some(Entry(Above(17), USER_SERVICE))
    case InputManager => Some(Entry(Above(16), INPUT_SERVICE))
    case MediaRouter => Some(Entry(Above(16), MEDIA_ROUTER_SERVICE))
    case NsdManager => Some(Entry(Above(16), NSD_SERVICE))
    case AccessibilityService => Some(Entry(Always, ACCESSIBILITY_SERVICE))
    case AccountManager => Some(Entry(Always, ACCOUNT_SERVICE))
    case ActivityManager => Some(Entry(Always, ACTIVITY_SERVICE))
    case AlarmManager => Some(Entry(Always, ALARM_SERVICE))
    case AudioManager => Some(Entry(Always, AUDIO_SERVICE))
    case ClipboardManager => Some(Entry(Always, CLIPBOARD_SERVICE))
    case ConnectivityManager => Some(Entry(Always, CONNECTIVITY_SERVICE))
    case DevicePolicyManager => Some(Entry(Always, DEVICE_POLICY_SERVICE))
    case DownloadManager => Some(Entry(Always, DOWNLOAD_SERVICE))
    case DropBoxManager => Some(Entry(Always, DROPBOX_SERVICE))
    case InputMethodManager => Some(Entry(Always, INPUT_METHOD_SERVICE))
    case KeyguardManager => Some(Entry(Always, KEYGUARD_SERVICE))
    case LayoutInflater => Some(Entry(Always, LAYOUT_INFLATER_SERVICE))
    case LocationManager => Some(Entry(Always, LOCATION_SERVICE))
    case NfcManager => Some(Entry(Always, NFC_SERVICE))
    case NotificationManager => Some(Entry(Always, NOTIFICATION_SERVICE))
    case PowerManager => Some(Entry(Always, POWER_SERVICE))
    case SearchManager => Some(Entry(Always, SEARCH_SERVICE))
    case SensorManager => Some(Entry(Always, SENSOR_SERVICE))
    case StorageManager => Some(Entry(Always, STORAGE_SERVICE))
    case TelephonyManager => Some(Entry(Always, TELEPHONY_SERVICE))
    case TextServicesManager => Some(Entry(Always, TEXT_SERVICES_MANAGER_SERVICE))
    case UiModeManager => Some(Entry(Always, UI_MODE_SERVICE))
    case UsbManager => Some(Entry(Always, USB_SERVICE))
    case Vibrator => Some(Entry(Always, VIBRATOR_SERVICE))
    case WallpaperManager => Some(Entry(Always, WALLPAPER_SERVICE))
    case WifiP2pManager => Some(Entry(Always, WIFI_P2P_SERVICE))
    case WifiManager => Some(Entry(Always, WIFI_SERVICE))
    case WindowManager => Some(Entry(Always, WINDOW_SERVICE))
    case AccessibilityManager => None
    case OtherClass(_) => None
  }

  /** The classes the table's lines mention. */
  function TableClasses(): set<ServiceClass> {
    {
      SubscriptionManager, UsageStatsManager, AppWidgetManager, BatteryManager,
      CameraManager, JobScheduler, LauncherApps, MediaProjectionManager,
      MediaSessionManager, RestrictionsManager, TelecomManager, TvInputManager,
      AppOpsManager, CaptioningManager, ConsumerIrManager, PrintManager,
      BluetoothManager, DisplayManager, UserManager, InputManager,
      MediaRouter, NsdManager, AccessibilityService, AccountManager,
      ActivityManager, AlarmManager, AudioManager, ClipboardManager,
      ConnectivityManager, DevicePolicyManager, DownloadManager, DropBoxManager,
      InputMethodManager, KeyguardManager, LayoutInflater, LocationManager,
      NfcManager, NotificationManager, PowerManager, SearchManager,
      SensorManager, StorageManager, TelephonyManager, TextServicesManager,
      UiModeManager, UsbManager, Vibrator, WallpaperManager,
      WifiP2pManager, WifiManager, WindowManager
    }
  }

  /** Every class with a line of its own is among the table's classes. */
  lemma TableClassesComplete(c: ServiceClass)
    ensures EntryFor(c).Some? ==> c in TableClasses()
  {
    match c
    case SubscriptionManager =>
    case UsageStatsManager =>
    case AppWidgetManager =>
    case BatteryManager =>
    case CameraManager =>
    case JobScheduler =>
    case LauncherApps =>
    case MediaProjectionManager =>
    case MediaSessionManager =>
    case RestrictionsManager =>
    case TelecomManager =>
    case TvInputManager =>
    case AppOpsManager =>
    case CaptioningManager =>
    case ConsumerIrManager =>
    case PrintManager =>
    case BluetoothManager =>
    case DisplayManager =>
    case UserManager =>
    case InputManager =>
    case MediaRouter =>
    case NsdManager =>
    case AccessibilityService =>
    case AccountManager =>
    case ActivityManager =>
    case AlarmManager =>
    case AudioManager =>
    case ClipboardManager =>
    case ConnectivityManager =>
    case DevicePolicyManager =>
    case DownloadManager =>
    case DropBoxManager =>
    case InputMethodManager =>
    case KeyguardManager =>
    case LayoutInflater =>
    case LocationManager =>
    case NfcManager =>
    case NotificationManager =>
    case PowerManager =>
    case SearchManager =>
    case SensorManager =>
    case StorageManager =>
    case TelephonyManager =>
    case TextServicesManager =>
    case UiModeManager =>
    case UsbManager =>
    case Vibrator =>
    case WallpaperManager =>
    case WifiP2pManager =>
    case WifiManager =>
    case WindowManager =>
    case AccessibilityManager =>
    case OtherClass(_) =>
  }

  /** No line of the table sits in a block that needs more than API 23. */
  lemma GuardsAtMostApi22(c: ServiceClass)
    requires EntryFor(c).Some? && EntryFor(c).value.guard.Above?
    ensures EntryFor(c).value.guard.threshold <= 22
  {
  }

  /** The SERVICES table as filled on platform version `sdk`: the lines whose
      guard holds. */
  function Services(sdk: int): (table: map<ServiceClass, ServiceName>)
    ensures table.Keys <= TableClasses()
    ensures sdk > 22 ==> forall c :: EntryFor(c).Some? ==> c in table
  {
    assert sdk > 22 ==> forall c :: EntryFor(c).Some? ==> c in TableClasses() && Holds(EntryFor(c).value.guard, sdk) by {
      forall c | EntryFor(c).Some?
        ensures c in TableClasses()
        ensures sdk > 22 ==> Holds(EntryFor(c).value.guard, sdk)
      {
        TableClassesComplete(c);
        if EntryFor(c).value.guard.Above? {
          GuardsAtMostApi22(c);
        }
      }
    }
    map c | c in TableClasses() && EntryFor(c).Some? && Holds(EntryFor(c).value.guard, sdk) :: EntryFor(c).value.name
  }

  /** Looking a class up finds exactly the line that stores it, when that
      line's guard holds on this sdk. */
  lemma ServicesLookup(sdk: int, c: ServiceClass)
    ensures c in Services(sdk) <==> EntryFor(c).Some? && Holds(EntryFor(c).value.guard, sdk)
    ensures c in Services(sdk) ==> Services(sdk)[c] == EntryFor(c).value.name
  {
    TableClassesComplete(c);
  }

  /** The unconditional lines are present on every sdk. */
  lemma UnconditionalAlwaysPresent(sdk: int, c: ServiceClass)
    requires EntryFor(c).Some? && EntryFor(c).value.guard == Always
    ensures c in Services(sdk)
  {
    ServicesLookup(sdk, c);
  }

  /** A guarded line is present exactly when the sdk is strictly above its
      block's threshold. */
  lemma GuardedPresentIffAbove(sdk: int, c: ServiceClass)
    requires EntryFor(c).Some? && EntryFor(c).value.guard.Above?
    ensures c in Services(sdk) <==> sdk > EntryFor(c).value.guard.threshold
  {
    ServicesLookup(sdk, c);
  }

  /** The table only grows with the platform version, and never renames a class. */
  lemma ServicesMonotone(sdk1: int, sdk2: int, c: ServiceClass)
    requires sdk1 <= sdk2
    requires c in Services(sdk1)
    ensures c in Services(sdk2) && Services(sdk2)[c] == Services(sdk1)[c]
  {
    ServicesLookup(sdk1, c);
    ServicesLookup(sdk2, c);
  }

  /** Thresholds are strict: the group headed by CameraManager is present
      exactly above API 21, so on API 21 itself it is absent. */
  lemma ThresholdsAreStrict(sdk: int, c: ServiceClass)
    requires c == CameraManager
    ensures c in Services(sdk) <==> sdk > 21
    ensures c in Services(sdk) ==> Services(sdk)[c] == CAMERA_SERVICE
  {
    assert EntryFor(c) == Some(Entry(Above(21), CAMERA_SERVICE));
    ServicesLookup(sdk, c);
  }

  /** `systemServiceName(serviceClass)`: from API 23 the platform's own answer
      (`getSystemServiceName`, a parameter here); below it, the table entry
      or `null`. */
  function SystemServiceName(sdk: int, c: ServiceClass, platformName: ServiceClass -> Option<string>): (name: Option<string>)
    ensures sdk >= 23 ==> name == platformName(c)
    ensures sdk < 23 ==> (name.Some? <==> EntryFor(c).Some? && Holds(EntryFor(c).value.guard, sdk))
    ensures sdk < 23 && name.Some? ==> name.value == Text(EntryFor(c).value.name)
  {
    ServicesLookup(sdk, c);
    if sdk >= 23 then platformName(c)
    else if c in Services(sdk) then Some(Text(Services(sdk)[c]))
    else None
  }

  /** What `getSystemServiceCompat` asks the context for: the service of a
      class (from API 23) or the service of a name. */
  datatype ServiceRequest = ByClass(serviceClass: ServiceClass) | ByName(name: string)

  datatype ServiceError = IllegalArgumentException(missing: ServiceClass)

  /** `getSystemServiceCompat(serviceClass)`: from API 23 the service is fetched
      by class; below, by the name the table gives, and a class without a name
      throws IllegalArgumentException. */
  function GetSystemServiceCompat(sdk: int, c: ServiceClass, platformName: ServiceClass -> Option<string>): (r: Result<ServiceRequest, ServiceError>)
    ensures sdk >= 23 ==> r == Success(ByClass(c))
    ensures sdk < 23 ==> (r.Failure? <==> EntryFor(c).None? || !Holds(EntryFor(c).value.guard, sdk))
    ensures sdk < 23 && r.Success? ==> r.value == ByName(Text(EntryFor(c).value.name))
    ensures r.Failure? ==> r.error == IllegalArgumentException(c)
  {
    if sdk >= 23 then Success(ByClass(c))
    else
      var serviceName := SystemServiceName(sdk, c, platformName);
      if serviceName.Some? then Success(ByName(serviceName.value))
      else Failure(IllegalArgumentException(c))
  }

  /** Below API 23 the exception is thrown exactly when `systemServiceName`
      gives `null`, whatever the platform would have answered; otherwise the
      service is fetched under that name. */
  lemma CompatFailsIffNoName(sdk: int, c: ServiceClass, platformName: ServiceClass -> Option<string>)
    requires sdk < 23
    ensures GetSystemServiceCompat(sdk, c, platformName).Failure? <==> SystemServiceName(sdk, c, platformName).None?
    ensures GetSystemServiceCompat(sdk, c, platformName).Success? ==>
      GetSystemServiceCompat(sdk, c, platformName).value == ByName(SystemServiceName(sdk, c, platformName).value)
  {
    var name := SystemServiceName(sdk, c, platformName);
    assert GetSystemServiceCompat(sdk, c, platformName)
      == if name.Some? then Success(ByName(name.value)) else Failure(IllegalArgumentException(c));
  }

  /** The two API 23 entries are added only above 22 but the table is only read
      below 23, and the accessibility entry is keyed by the wrong class: these
      three lookups can never succeed through the table. */
  lemma NeverFoundBelowApi23(sdk: int, c: ServiceClass, platformName: ServiceClass -> Option<string>)
    requires sdk < 23
    requires c == SubscriptionManager || c == UsageStatsManager || c == AccessibilityManager
    ensures GetSystemServiceCompat(sdk, c, platformName).Failure?
  {
    var entry := EntryFor(c);
    assert entry.None? || entry.value.guard == Above(22);
    assert entry.None? || !Holds(entry.value.guard, sdk);
  }
}
