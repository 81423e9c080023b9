/**
 * The Android facts the request engine depends on: the permission names it
 * treats specially, the platform version codes it compares against, and the
 * live queries it makes of the device.  The queries are not modelled as
 * calls: each operation receives a `Platform` snapshot whose fields are the
 * answers the device would give at that moment.
 */
module Android {
  const ACCESS_FINE_LOCATION: string := "android.permission.ACCESS_FINE_LOCATION"
  const ACCESS_COARSE_LOCATION: string := "android.permission.ACCESS_COARSE_LOCATION"
  const ACCESS_BACKGROUND_LOCATION: string := "android.permission.ACCESS_BACKGROUND_LOCATION"
  const SYSTEM_ALERT_WINDOW: string := "android.permission.SYSTEM_ALERT_WINDOW"
  const WRITE_SETTINGS: string := "android.permission.WRITE_SETTINGS"
  const MANAGE_EXTERNAL_STORAGE: string := "android.permission.MANAGE_EXTERNAL_STORAGE"
  const REQUEST_INSTALL_PACKAGES: string := "android.permission.REQUEST_INSTALL_PACKAGES"
  const POST_NOTIFICATIONS: string := "android.permission.POST_NOTIFICATIONS"
  const BODY_SENSORS: string := "android.permission.BODY_SENSORS"
  const BODY_SENSORS_BACKGROUND: string := "android.permission.BODY_SENSORS_BACKGROUND"

  /** Build.VERSION_CODES values the engine compares against. */
  const KITKAT_WATCH: int := 20
  const M: int := 23
  const O: int := 26
  const Q: int := 29
  const R: int := 30
  const TIRAMISU: int := 33

  /** The names that are not requested through the runtime-permission dialog. */
  const AllSpecialPermissions: set<string> :=
    {ACCESS_BACKGROUND_LOCATION, SYSTEM_ALERT_WINDOW, WRITE_SETTINGS, MANAGE_EXTERNAL_STORAGE,
     REQUEST_INSTALL_PACKAGES, POST_NOTIFICATIONS, BODY_SENSORS_BACKGROUND}

  /** `PackageManager.PERMISSION_GRANTED` as carried in a grant-result array. */
  const PERMISSION_GRANTED: int := 0

  /**
   * One snapshot of the device: its SDK level, the app's target SDK, which
   * runtime permissions are currently granted, for which ones the platform
   * would show a rationale, and the special-access switches.
   */
  datatype Platform = Platform(
    sdkInt: int,
    targetSdkVersion: int,
    granted: set<string>,
    rationale: set<string>,
    canDrawOverlays: bool,
    canWrite: bool,
    isExternalStorageManager: bool,
    canRequestPackageInstalls: bool,
    areNotificationsEnabled: bool)
  {
    predicate IsGranted(permission: string) { permission in granted }
    predicate ShouldShowRequestPermissionRationale(permission: string) { permission in rationale }
  }
}
