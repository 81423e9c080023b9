/**
 * The seven tasks of the current engine that handle one special permission
 * each.  A task does nothing but finish when its permission was not asked
 * for; otherwise it finishes at once when the permission is already held,
 * and else explains (with `beforeRequest` true) before asking, or asks
 * directly, or gives up, as each permission's rules say.
 */
module RequestBackgroundLocationPermission {
  import opened Android
  import opened Steps
  import opened OrderedSet
  import opened Builder

  /** Asking again ignores its argument and always asks for background location. */
  function RequestAgain(permissions: seq<string>): Action {
    LaunchSpecialRequest(BackgroundLocation)
  }

  /**
   * Below Android Q background location does not exist: it leaves the
   * special set for the won't-request list, and the checks below still run.
   * Already granted: finish.  With fine or coarse location held: explain if
   * a callback is registered, else ask at once.  Otherwise finish.
   */
  function RequestSpec(s: Session, env: Platform): (r: Step)
    ensures Wf(s) ==> Wf(r.session)
    ensures !s.ShouldRequestBackgroundLocationPermission() ==> r == Step(s, TaskFinish)
    ensures s.ShouldRequestBackgroundLocationPermission() && env.sdkInt < Q ==>
      r.session == s.(specialPermissions := s.specialPermissions - {ACCESS_BACKGROUND_LOCATION},
                      permissionsWontRequest := Add(s.permissionsWontRequest, ACCESS_BACKGROUND_LOCATION))
    ensures env.sdkInt >= Q ==> r.session == s
    ensures r.action.CallExplainReason? <==>
      s.ShouldRequestBackgroundLocationPermission() && !env.IsGranted(ACCESS_BACKGROUND_LOCATION) &&
      (env.IsGranted(ACCESS_FINE_LOCATION) || env.IsGranted(ACCESS_COARSE_LOCATION)) && s.callbacks.CanExplain()
    ensures r.action.CallExplainReason? ==>
      r.action == CallExplainReason([ACCESS_BACKGROUND_LOCATION], s.callbacks.ExplainVia(true))
    ensures r.action == LaunchSpecialRequest(BackgroundLocation) <==>
      s.ShouldRequestBackgroundLocationPermission() && !env.IsGranted(ACCESS_BACKGROUND_LOCATION) &&
      (env.IsGranted(ACCESS_FINE_LOCATION) || env.IsGranted(ACCESS_COARSE_LOCATION)) && !s.callbacks.CanExplain()
    ensures r.action.TaskFinish? || r.action.CallExplainReason? || r.action.LaunchSpecialRequest?
  {
    if s.ShouldRequestBackgroundLocationPermission() then
      var s1 := if env.sdkInt < Q then
          s.(specialPermissions := s.specialPermissions - {ACCESS_BACKGROUND_LOCATION},
             permissionsWontRequest := Add(s.permissionsWontRequest, ACCESS_BACKGROUND_LOCATION))
        else s;
      if env.IsGranted(ACCESS_BACKGROUND_LOCATION) then Step(s1, TaskFinish)
      else if env.IsGranted(ACCESS_FINE_LOCATION) || env.IsGranted(ACCESS_COARSE_LOCATION) then
        if s.callbacks.CanExplain() then
          Step(s1, CallExplainReason([ACCESS_BACKGROUND_LOCATION], s.callbacks.ExplainVia(true)))
        else Step(s1, RequestAgain([]))
      else Step(s1, TaskFinish)
    else Step(s, TaskFinish)
  }

  method Request(pb: PermissionBuilder, env: Platform) returns (a: Action)
    modifies pb
    ensures Step(pb.State(), a) == RequestSpec(old(pb.State()), env)
  {
    if ACCESS_BACKGROUND_LOCATION in pb.specialPermissions {
      if env.sdkInt < Q {
        pb.specialPermissions := pb.specialPermissions - {ACCESS_BACKGROUND_LOCATION};
        pb.permissionsWontRequest := Add(pb.permissionsWontRequest, ACCESS_BACKGROUND_LOCATION);
      }
      if env.IsGranted(ACCESS_BACKGROUND_LOCATION) {
        return TaskFinish;
      }
      var accessFineLocationGranted := env.IsGranted(ACCESS_FINE_LOCATION);
      var accessCoarseLocationGranted := env.IsGranted(ACCESS_COARSE_LOCATION);
      if accessFineLocationGranted || accessCoarseLocationGranted {
        if pb.callbacks.CanExplain() {
          a := CallExplainReason([ACCESS_BACKGROUND_LOCATION], pb.callbacks.ExplainVia(true));
        } else {
          a := RequestAgain([]);
        }
        return;
      }
    }
    a := TaskFinish;
  }
}

module RequestSystemAlertWindowPermission {
  import opened Android
  import opened Steps
  import opened OrderedSet
  import opened Builder

  function RequestAgain(permissions: seq<string>): Action {
    LaunchSpecialRequest(SystemAlertWindow)
  }

  /** The platform and the app both at Android M or later: the overlay switch exists. */
  predicate SwitchExists(env: Platform) {
    env.sdkInt >= M && env.targetSdkVersion >= M
  }

  /**
   * Without the switch the permission counts as granted and stops being
   * special.  With it: already on, finish; else explain if a callback is
   * registered, and finish (without asking) if not.
   */
  function RequestSpec(s: Session, env: Platform): (r: Step)
    ensures Wf(s) ==> Wf(r.session)
    ensures !s.ShouldRequestSystemAlertWindowPermission() ==> r == Step(s, TaskFinish)
    ensures r.session == s || r.session == s.(
      grantedPermissions := Add(s.grantedPermissions, SYSTEM_ALERT_WINDOW),
      specialPermissions := s.specialPermissions - {SYSTEM_ALERT_WINDOW})
    ensures r.session != s <==> s.ShouldRequestSystemAlertWindowPermission() && !SwitchExists(env)
    ensures r.action.CallExplainReason? <==>
      s.ShouldRequestSystemAlertWindowPermission() && SwitchExists(env) && !env.canDrawOverlays && s.callbacks.CanExplain()
    ensures r.action == TaskFinish || r.action == CallExplainReason([SYSTEM_ALERT_WINDOW], s.callbacks.ExplainVia(true))
  {
    if s.ShouldRequestSystemAlertWindowPermission() then
      if SwitchExists(env) then
        if env.canDrawOverlays then Step(s, TaskFinish)
        else if s.callbacks.CanExplain() then
          Step(s, CallExplainReason([SYSTEM_ALERT_WINDOW], s.callbacks.ExplainVia(true)))
        else Step(s, TaskFinish)
      else
        var s1 := s.(grantedPermissions := Add(s.grantedPermissions, SYSTEM_ALERT_WINDOW),
                     specialPermissions := s.specialPermissions - {SYSTEM_ALERT_WINDOW});
        assert s1.specialPermissions != s.specialPermissions;
        Step(s1, TaskFinish)
    else Step(s, TaskFinish)
  }

  method Request(pb: PermissionBuilder, env: Platform) returns (a: Action)
    modifies pb
    ensures Step(pb.State(), a) == RequestSpec(old(pb.State()), env)
  {
    if SYSTEM_ALERT_WINDOW in pb.specialPermissions {
      if env.sdkInt >= M && env.targetSdkVersion >= M {
        if env.canDrawOverlays {
          return TaskFinish;
        }
        if pb.callbacks.CanExplain() {
          a := CallExplainReason([SYSTEM_ALERT_WINDOW], pb.callbacks.ExplainVia(true));
        } else {
          a := TaskFinish;
        }
      } else {
        pb.grantedPermissions := Add(pb.grantedPermissions, SYSTEM_ALERT_WINDOW);
        pb.specialPermissions := pb.specialPermissions - {SYSTEM_ALERT_WINDOW};
        a := TaskFinish;
      }
    } else {
      a := TaskFinish;
    }
  }
}

module RequestWriteSettingsPermission {
  import opened Android
  import opened Steps
  import opened OrderedSet
  import opened Builder

  function RequestAgain(permissions: seq<string>): Action {
    LaunchSpecialRequest(WriteSettings)
  }

  predicate SwitchExists(env: Platform) {
    env.sdkInt >= M && env.targetSdkVersion >= M
  }

  /** The overlay task's rules, with the write-settings switch. */
  function RequestSpec(s: Session, env: Platform): (r: Step)
    ensures Wf(s) ==> Wf(r.session)
    ensures !s.ShouldRequestWriteSettingsPermission() ==> r == Step(s, TaskFinish)
    ensures r.session == s || r.session == s.(
      grantedPermissions := Add(s.grantedPermissions, WRITE_SETTINGS),
      specialPermissions := s.specialPermissions - {WRITE_SETTINGS})
    ensures r.session != s <==> s.ShouldRequestWriteSettingsPermission() && !SwitchExists(env)
    ensures r.action.CallExplainReason? <==>
      s.ShouldRequestWriteSettingsPermission() && SwitchExists(env) && !env.canWrite && s.callbacks.CanExplain()
    ensures r.action == TaskFinish || r.action == CallExplainReason([WRITE_SETTINGS], s.callbacks.ExplainVia(true))
  {
    if s.ShouldRequestWriteSettingsPermission() then
      if SwitchExists(env) then
        if env.canWrite then Step(s, TaskFinish)
        else if s.callbacks.CanExplain() then
          Step(s, CallExplainReason([WRITE_SETTINGS], s.callbacks.ExplainVia(true)))
        else Step(s, TaskFinish)
      else
        var s1 := s.(grantedPermissions := Add(s.grantedPermissions, WRITE_SETTINGS),
                     specialPermissions := s.specialPermissions - {WRITE_SETTINGS});
        assert s1.specialPermissions != s.specialPermissions;
        Step(s1, TaskFinish)
    else Step(s, TaskFinish)
  }

  method Request(pb: PermissionBuilder, env: Platform) returns (a: Action)
    modifies pb
    ensures Step(pb.State(), a) == RequestSpec(old(pb.State()), env)
  {
    if WRITE_SETTINGS in pb.specialPermissions {
      if env.sdkInt >= M && env.targetSdkVersion >= M {
        if env.canWrite {
          return TaskFinish;
        }
        if pb.callbacks.CanExplain() {
          a := CallExplainReason([WRITE_SETTINGS], pb.callbacks.ExplainVia(true));
        } else {
          a := TaskFinish;
        }
      } else {
        pb.grantedPermissions := Add(pb.grantedPermissions, WRITE_SETTINGS);
        pb.specialPermissions := pb.specialPermissions - {WRITE_SETTINGS};
        a := TaskFinish;
      }
    } else {
      a := TaskFinish;
    }
  }
}

module RequestManageExternalStoragePermission {
  import opened Android
  import opened Steps
  import opened Builder

  function RequestAgain(permissions: seq<string>): Action {
    LaunchSpecialRequest(ManageExternalStorage)
  }

  /**
   * Only from Android R on: held already, finish; else explain if a callback
   * is registered, finish otherwise.  The state never changes.
   */
  function Request(s: Session, env: Platform): (a: Action)
    ensures a.CallExplainReason? <==>
      s.ShouldRequestManageExternalStoragePermission() && env.sdkInt >= R && !env.isExternalStorageManager &&
      s.callbacks.CanExplain()
    ensures a == TaskFinish || a == CallExplainReason([MANAGE_EXTERNAL_STORAGE], s.callbacks.ExplainVia(true))
  {
    if s.ShouldRequestManageExternalStoragePermission() && env.sdkInt >= R then
      if env.isExternalStorageManager then TaskFinish
      else if s.callbacks.CanExplain() then
        CallExplainReason([MANAGE_EXTERNAL_STORAGE], s.callbacks.ExplainVia(true))
      else TaskFinish
    else TaskFinish
  }
}

module RequestInstallPackagesPermission {
  import opened Android
  import opened Steps
  import opened Builder

  function RequestAgain(permissions: seq<string>): Action {
    LaunchSpecialRequest(InstallPackages)
  }

  /**
   * Only with platform and app both at Android O or later: allowed already,
   * finish; else explain if a callback is registered, finish otherwise.
   */
  function Request(s: Session, env: Platform): (a: Action)
    ensures a.CallExplainReason? <==>
      s.ShouldRequestInstallPackagesPermission() && env.sdkInt >= O && env.targetSdkVersion >= O &&
      !env.canRequestPackageInstalls && s.callbacks.CanExplain()
    ensures a == TaskFinish || a == CallExplainReason([REQUEST_INSTALL_PACKAGES], s.callbacks.ExplainVia(true))
  {
    if s.ShouldRequestInstallPackagesPermission() && env.sdkInt >= O && env.targetSdkVersion >= O then
      if env.canRequestPackageInstalls then TaskFinish
      else if s.callbacks.CanExplain() then
        CallExplainReason([REQUEST_INSTALL_PACKAGES], s.callbacks.ExplainVia(true))
      else TaskFinish
    else TaskFinish
  }
}

module RequestNotificationPermission {
  import opened Android
  import opened Steps
  import opened Builder

  function RequestAgain(permissions: seq<string>): Action {
    LaunchSpecialRequest(Notification)
  }

  /** On every platform level: enabled already, finish; else explain if possible, finish otherwise. */
  function Request(s: Session, env: Platform): (a: Action)
    ensures a.CallExplainReason? <==>
      s.ShouldRequestNotificationPermission() && !env.areNotificationsEnabled && s.callbacks.CanExplain()
    ensures a == TaskFinish || a == CallExplainReason([POST_NOTIFICATIONS], s.callbacks.ExplainVia(true))
  {
    if s.ShouldRequestNotificationPermission() then
      if env.areNotificationsEnabled then TaskFinish
      else if s.callbacks.CanExplain() then
        CallExplainReason([POST_NOTIFICATIONS], s.callbacks.ExplainVia(true))
      else TaskFinish
    else TaskFinish
  }
}

module RequestBodySensorsBackgroundPermission {
  import opened Android
  import opened Steps
  import opened OrderedSet
  import opened Builder

  function RequestAgain(permissions: seq<string>): Action {
    LaunchSpecialRequest(BodySensorsBackground)
  }

  /** BODY_SENSORS counts as granted only from KitKat Watch on. */
  predicate BodySensorGranted(env: Platform) {
    if env.sdkInt >= KITKAT_WATCH then env.IsGranted(BODY_SENSORS) else false
  }

  /**
   * Below Android T the permission does not exist: it moves from the special
   * set to the won't-request list and the task finishes.  Otherwise: granted
   * already, finish; with BODY_SENSORS held, explain if possible, else ask at
   * once; otherwise finish.
   */
  function RequestSpec(s: Session, env: Platform): (r: Step)
    ensures Wf(s) ==> Wf(r.session)
    ensures !s.ShouldRequestBodySensorsBackgroundPermission() ==> r == Step(s, TaskFinish)
    ensures s.ShouldRequestBodySensorsBackgroundPermission() && env.sdkInt < TIRAMISU ==>
      r == Step(s.(specialPermissions := s.specialPermissions - {BODY_SENSORS_BACKGROUND},
                   permissionsWontRequest := Add(s.permissionsWontRequest, BODY_SENSORS_BACKGROUND)), TaskFinish)
    ensures env.sdkInt >= TIRAMISU ==> r.session == s
    ensures r.action.CallExplainReason? <==>
      s.ShouldRequestBodySensorsBackgroundPermission() && env.sdkInt >= TIRAMISU &&
      !env.IsGranted(BODY_SENSORS_BACKGROUND) && env.IsGranted(BODY_SENSORS) && s.callbacks.CanExplain()
    ensures r.action.CallExplainReason? ==>
      r.action == CallExplainReason([BODY_SENSORS_BACKGROUND], s.callbacks.ExplainVia(true))
    ensures r.action == LaunchSpecialRequest(BodySensorsBackground) <==>
      s.ShouldRequestBodySensorsBackgroundPermission() && env.sdkInt >= TIRAMISU &&
      !env.IsGranted(BODY_SENSORS_BACKGROUND) && env.IsGranted(BODY_SENSORS) && !s.callbacks.CanExplain()
    ensures r.action.TaskFinish? || r.action.CallExplainReason? || r.action.LaunchSpecialRequest?
  {
    if s.ShouldRequestBodySensorsBackgroundPermission() then
      if env.sdkInt < TIRAMISU then
        Step(s.(specialPermissions := s.specialPermissions - {BODY_SENSORS_BACKGROUND},
                permissionsWontRequest := Add(s.permissionsWontRequest, BODY_SENSORS_BACKGROUND)), TaskFinish)
      else if env.IsGranted(BODY_SENSORS_BACKGROUND) then Step(s, TaskFinish)
      else if BodySensorGranted(env) then
        if s.callbacks.CanExplain() then
          Step(s, CallExplainReason([BODY_SENSORS_BACKGROUND], s.callbacks.ExplainVia(true)))
        else Step(s, RequestAgain([]))
      else Step(s, TaskFinish)
    else Step(s, TaskFinish)
  }

  method Request(pb: PermissionBuilder, env: Platform) returns (a: Action)
    modifies pb
    ensures Step(pb.State(), a) == RequestSpec(old(pb.State()), env)
  {
    if BODY_SENSORS_BACKGROUND in pb.specialPermissions {
      if env.sdkInt < TIRAMISU {
        pb.specialPermissions := pb.specialPermissions - {BODY_SENSORS_BACKGROUND};
        pb.permissionsWontRequest := Add(pb.permissionsWontRequest, BODY_SENSORS_BACKGROUND);
        return TaskFinish;
      }
      if env.IsGranted(BODY_SENSORS_BACKGROUND) {
        return TaskFinish;
      }
      var bodySensorGranted := if env.sdkInt >= KITKAT_WATCH then env.IsGranted(BODY_SENSORS) else false;
      if bodySensorGranted {
        if pb.callbacks.CanExplain() {
          a := CallExplainReason([BODY_SENSORS_BACKGROUND], pb.callbacks.ExplainVia(true));
        } else {
          a := RequestAgain([]);
        }
        return;
      }
    }
    a := TaskFinish;
  }
}

/**
 * Every special task asks again for its own screen or permission, whatever
 * list the dialog hands back.
 */
module SpecialRequestAgain {
  import opened Steps
  import BackgroundLocation = RequestBackgroundLocationPermission
  import SystemAlertWindow = RequestSystemAlertWindowPermission
  import WriteSettings = RequestWriteSettingsPermission
  import ManageExternalStorage = RequestManageExternalStoragePermission
  import InstallPackages = RequestInstallPackagesPermission
  import Notification = RequestNotificationPermission
  import BodySensorsBackground = RequestBodySensorsBackgroundPermission

  lemma RequestAgainIgnoresList(p: seq<string>, q: seq<string>)
    ensures BackgroundLocation.RequestAgain(p) == BackgroundLocation.RequestAgain(q) ==
      LaunchSpecialRequest(TaskKind.BackgroundLocation)
    ensures SystemAlertWindow.RequestAgain(p) == SystemAlertWindow.RequestAgain(q) ==
      LaunchSpecialRequest(TaskKind.SystemAlertWindow)
    ensures WriteSettings.RequestAgain(p) == WriteSettings.RequestAgain(q) ==
      LaunchSpecialRequest(TaskKind.WriteSettings)
    ensures ManageExternalStorage.RequestAgain(p) == ManageExternalStorage.RequestAgain(q) ==
      LaunchSpecialRequest(TaskKind.ManageExternalStorage)
    ensures InstallPackages.RequestAgain(p) == InstallPackages.RequestAgain(q) ==
      LaunchSpecialRequest(TaskKind.InstallPackages)
    ensures Notification.RequestAgain(p) == Notification.RequestAgain(q) ==
      LaunchSpecialRequest(TaskKind.Notification)
    ensures BodySensorsBackground.RequestAgain(p) == BodySensorsBackground.RequestAgain(q) ==
      LaunchSpecialRequest(TaskKind.BodySensorsBackground)
  {
  }
}
