/**
 * A task's `finish`: run the next task of the chain, or, at the end of the
 * chain, settle the special permissions that are checked live, build the
 * denied list and hand the result to the user's callback.
 */
module BaseTask {
  import opened Android
  import opened Steps
  import opened OrderedSet
  import opened Builder
  import opened RequestChain

  /** What `finish` leads to. */
  datatype FinishOutcome =
    | RunNext(task: Task)                            // the next task's `request` runs
    | Completed(delivered: Option<RequestResult>)    // the chain is done; the callback gets this, if registered

  /** The granted set and the denied list while the end of the chain is settled. */
  datatype Tally = Tally(granted: seq<string>, deniedList: seq<string>)

  /** One live check at the end of the chain: a held name is granted, a missing one denied. */
  function Settle(t: Tally, applies: bool, held: bool, name: string): (u: Tally)
    ensures !applies ==> u == t
    ensures applies && held ==> u == t.(granted := Add(t.granted, name))
    ensures applies && !held ==> u == t.(deniedList := t.deniedList + [name])
  {
    if !applies then t
    else if held then t.(granted := Add(t.granted, name))
    else t.(deniedList := t.deniedList + [name])
  }

  /** Everything recorded as refused: denied, then permanently denied, then never requested. */
  function DeniedSoFar(s: Session): seq<string> {
    s.deniedPermissions + s.permanentDeniedPermissions + s.permissionsWontRequest
  }

  /** Whether the overlay and write-settings switches are checked at all. */
  predicate SwitchesChecked(env: Platform) {
    env.sdkInt >= M && env.targetSdkVersion >= M
  }

  /** Whether all-files access is held: only from Android R on. */
  predicate StorageManagerHeld(env: Platform) {
    env.sdkInt >= R && env.isExternalStorageManager
  }

  /** The tally before the live checks. */
  function Start(s: Session): Tally {
    Tally(s.grantedPermissions, DeniedSoFar(s))
  }

  /** After the background-location check: applies whenever it is special. */
  function AfterBackgroundLocation(s: Session, env: Platform): Tally {
    Settle(Start(s), s.ShouldRequestBackgroundLocationPermission(), env.IsGranted(ACCESS_BACKGROUND_LOCATION),
           ACCESS_BACKGROUND_LOCATION)
  }

  /** After the overlay check: applies when special and both SDK levels are at least M. */
  function AfterSystemAlertWindow(s: Session, env: Platform): Tally {
    Settle(AfterBackgroundLocation(s, env), s.ShouldRequestSystemAlertWindowPermission() && SwitchesChecked(env),
           env.canDrawOverlays, SYSTEM_ALERT_WINDOW)
  }

  /** After the write-settings check: the same condition as the overlay. */
  function AfterWriteSettings(s: Session, env: Platform): Tally {
    Settle(AfterSystemAlertWindow(s, env), s.ShouldRequestWriteSettingsPermission() && SwitchesChecked(env),
           env.canWrite, WRITE_SETTINGS)
  }

  /** The end of the Kotlin chain, after the all-files-access check, which applies whenever it is special. */
  function Terminal(s: Session, env: Platform): Tally {
    Settle(AfterWriteSettings(s, env), s.ShouldRequestManageExternalStoragePermission(), StorageManagerHeld(env),
           MANAGE_EXTERNAL_STORAGE)
  }

  /** Some live check at the end of the Kotlin chain finds its name not held. */
  predicate SomeLiveCheckFails(s: Session, env: Platform) {
    (s.ShouldRequestBackgroundLocationPermission() && !env.IsGranted(ACCESS_BACKGROUND_LOCATION)) ||
    (s.ShouldRequestSystemAlertWindowPermission() && SwitchesChecked(env) && !env.canDrawOverlays) ||
    (s.ShouldRequestWriteSettingsPermission() && SwitchesChecked(env) && !env.canWrite) ||
    (s.ShouldRequestManageExternalStoragePermission() && !StorageManagerHeld(env))
  }

  /**
   * The result handed to the callback at the end of the Kotlin chain.  It
   * reports everything granted exactly when nothing was ever recorded as
   * refused and every live check passes.
   */
  function TerminalResult(s: Session, env: Platform): (r: RequestResult)
    ensures r.allGranted <==>
      s.deniedPermissions == [] && s.permanentDeniedPermissions == [] && s.permissionsWontRequest == [] &&
      !SomeLiveCheckFails(s, env)
    ensures r.allGranted <==> r.deniedList == []
  {
    Report(Terminal(s, env))
  }

  /** The result a settled tally reports: everything granted exactly when nothing is denied. */
  function Report(t: Tally): RequestResult {
    RequestResult(t.deniedList == [], t.granted, t.deniedList)
  }

  /** The names `finish` may settle at the end of the Kotlin chain. */
  const LiveChecked: set<string> :=
    {ACCESS_BACKGROUND_LOCATION, SYSTEM_ALERT_WINDOW, WRITE_SETTINGS, MANAGE_EXTERNAL_STORAGE}

  /**
   * `u` continues `t`: both lists keep `t`'s as a prefix, only live-checked
   * names are added, and the granted set stays duplicate-free.
   */
  ghost predicate Extends(t: Tally, u: Tally) {
    |t.deniedList| <= |u.deniedList| && u.deniedList[..|t.deniedList|] == t.deniedList &&
    (forall i :: |t.deniedList| <= i < |u.deniedList| ==> u.deniedList[i] in LiveChecked) &&
    |t.granted| <= |u.granted| && u.granted[..|t.granted|] == t.granted &&
    (forall p :: p in u.granted && p !in t.granted ==> p in LiveChecked) &&
    (NoDup(t.granted) ==> NoDup(u.granted))
  }

  lemma SettleExtends(t: Tally, applies: bool, held: bool, name: string)
    requires name in LiveChecked
    ensures Extends(t, Settle(t, applies, held, name))
  {
  }

  lemma ExtendsTrans(t: Tally, u: Tally, v: Tally)
    requires Extends(t, u) && Extends(u, v)
    ensures Extends(t, v)
  {
    assert v.deniedList[..|t.deniedList|] == v.deniedList[..|u.deniedList|][..|t.deniedList|];
    assert v.granted[..|t.granted|] == v.granted[..|u.granted|][..|t.granted|];
    forall i | |t.deniedList| <= i < |v.deniedList|
      ensures v.deniedList[i] in LiveChecked
    {
      if i < |u.deniedList| {
        assert v.deniedList[i] == v.deniedList[..|u.deniedList|][i];
      }
    }
  }

  /**
   * The denied list delivered at the end of the Kotlin chain starts with the
   * denied, permanently denied and never-requested names, in that order, and
   * adds only live-checked names after them: the install-packages,
   * notification and body-sensors-background permissions are never added.
   * The granted list keeps its order and grows only by live-checked names.
   */
  lemma TerminalShape(s: Session, env: Platform)
    ensures Extends(Start(s), Terminal(s, env))
  {
    SettleChainExtends(Start(s),
      s.ShouldRequestBackgroundLocationPermission(), env.IsGranted(ACCESS_BACKGROUND_LOCATION),
      s.ShouldRequestSystemAlertWindowPermission() && SwitchesChecked(env), env.canDrawOverlays,
      s.ShouldRequestWriteSettingsPermission() && SwitchesChecked(env), env.canWrite,
      s.ShouldRequestManageExternalStoragePermission(), StorageManagerHeld(env));
  }

  /** The four settling steps of `finish`, in their order, extend any tally. */
  lemma SettleChainExtends(t0: Tally, a1: bool, h1: bool, a2: bool, h2: bool, a3: bool, h3: bool,
                           a4: bool, h4: bool)
    ensures Extends(t0, Settle(Settle(Settle(Settle(t0, a1, h1, ACCESS_BACKGROUND_LOCATION),
                                               a2, h2, SYSTEM_ALERT_WINDOW),
                                        a3, h3, WRITE_SETTINGS),
                                 a4, h4, MANAGE_EXTERNAL_STORAGE))
  {
    var t1 := Settle(t0, a1, h1, ACCESS_BACKGROUND_LOCATION);
    var t2 := Settle(t1, a2, h2, SYSTEM_ALERT_WINDOW);
    var t3 := Settle(t2, a3, h3, WRITE_SETTINGS);
    var t4 := Settle(t3, a4, h4, MANAGE_EXTERNAL_STORAGE);
    SettleExtends(t0, a1, h1, ACCESS_BACKGROUND_LOCATION);
    SettleExtends(t1, a2, h2, SYSTEM_ALERT_WINDOW);
    SettleExtends(t2, a3, h3, WRITE_SETTINGS);
    SettleExtends(t3, a4, h4, MANAGE_EXTERNAL_STORAGE);
    ExtendsTrans(t0, t1, t2);
    ExtendsTrans(t0, t2, t3);
    ExtendsTrans(t0, t3, t4);
  }

  /**
   * Each live check that applies puts its name on the side it belongs to:
   * granted when held, denied when not.
   */
  lemma TerminalSettlesLiveNames(s: Session, env: Platform)
    ensures s.ShouldRequestBackgroundLocationPermission() ==>
      if env.IsGranted(ACCESS_BACKGROUND_LOCATION) then ACCESS_BACKGROUND_LOCATION in Terminal(s, env).granted
      else ACCESS_BACKGROUND_LOCATION in Terminal(s, env).deniedList
    ensures s.ShouldRequestSystemAlertWindowPermission() && SwitchesChecked(env) ==>
      if env.canDrawOverlays then SYSTEM_ALERT_WINDOW in Terminal(s, env).granted
      else SYSTEM_ALERT_WINDOW in Terminal(s, env).deniedList
    ensures s.ShouldRequestWriteSettingsPermission() && SwitchesChecked(env) ==>
      if env.canWrite then WRITE_SETTINGS in Terminal(s, env).granted else WRITE_SETTINGS in Terminal(s, env).deniedList
    ensures s.ShouldRequestManageExternalStoragePermission() ==>
      if StorageManagerHeld(env) then MANAGE_EXTERNAL_STORAGE in Terminal(s, env).granted
      else MANAGE_EXTERNAL_STORAGE in Terminal(s, env).deniedList
  {
    var t1 := AfterBackgroundLocation(s, env);
    var t2 := AfterSystemAlertWindow(s, env);
    var t3 := AfterWriteSettings(s, env);
    var t4 := Terminal(s, env);
    SettleKeeps(t1, s.ShouldRequestSystemAlertWindowPermission() && SwitchesChecked(env), env.canDrawOverlays,
                SYSTEM_ALERT_WINDOW, ACCESS_BACKGROUND_LOCATION);
    SettleKeeps(t2, s.ShouldRequestWriteSettingsPermission() && SwitchesChecked(env), env.canWrite,
                WRITE_SETTINGS, ACCESS_BACKGROUND_LOCATION);
    SettleKeeps(t2, s.ShouldRequestWriteSettingsPermission() && SwitchesChecked(env), env.canWrite,
                WRITE_SETTINGS, SYSTEM_ALERT_WINDOW);
    SettleKeeps(t3, s.ShouldRequestManageExternalStoragePermission(), StorageManagerHeld(env),
                MANAGE_EXTERNAL_STORAGE, ACCESS_BACKGROUND_LOCATION);
    SettleKeeps(t3, s.ShouldRequestManageExternalStoragePermission(), StorageManagerHeld(env),
                MANAGE_EXTERNAL_STORAGE, SYSTEM_ALERT_WINDOW);
    SettleKeeps(t3, s.ShouldRequestManageExternalStoragePermission(), StorageManagerHeld(env),
                MANAGE_EXTERNAL_STORAGE, WRITE_SETTINGS);
  }

  /** A later settling step keeps every name already on either side. */
  lemma SettleKeeps(t: Tally, applies: bool, held: bool, name: string, p: string)
    ensures p in t.granted ==> p in Settle(t, applies, held, name).granted
    ensures p in t.deniedList ==> p in Settle(t, applies, held, name).deniedList
  {
  }

  /**
   * `finish` of the Kotlin task: with a next task it only hands over;
   * at the end of the chain it adds the held live-checked names to the
   * granted set and delivers the result when a callback is registered.
   */
  method Finish(pb: PermissionBuilder, task: Task, env: Platform) returns (o: FinishOutcome)
    modifies pb`grantedPermissions
    ensures task.next != null ==> o == RunNext(task.next) && pb.grantedPermissions == old(pb.grantedPermissions)
    ensures task.next == null ==>
      pb.grantedPermissions == Terminal(old(pb.State()), env).granted &&
      o == Completed(if pb.callbacks.request then Some(TerminalResult(old(pb.State()), env)) else None)
  {
    if task.next != null {
      return RunNext(task.next);
    }
    var result := EndOfChain(pb, env);
    if pb.callbacks.request {
      o := Completed(Some(result));
    } else {
      o := Completed(None);
    }
  }

  /**
   * The end-of-chain branch of the Kotlin `finish`, up to the callback: the
   * denied list is built locally and each live check in turn grants or
   * denies its name.
   */
  method EndOfChain(pb: PermissionBuilder, env: Platform) returns (result: RequestResult)
    modifies pb`grantedPermissions
    ensures pb.grantedPermissions == Terminal(old(pb.State()), env).granted
    ensures result == TerminalResult(old(pb.State()), env)
  {
    var s := pb.State();
    var t := Start(s);
    t := Settle(t, s.ShouldRequestBackgroundLocationPermission(), env.IsGranted(ACCESS_BACKGROUND_LOCATION),
                ACCESS_BACKGROUND_LOCATION);
    t := Settle(t, s.ShouldRequestSystemAlertWindowPermission() && SwitchesChecked(env),
                env.canDrawOverlays, SYSTEM_ALERT_WINDOW);
    t := Settle(t, s.ShouldRequestWriteSettingsPermission() && SwitchesChecked(env), env.canWrite, WRITE_SETTINGS);
    t := Settle(t, s.ShouldRequestManageExternalStoragePermission(), StorageManagerHeld(env), MANAGE_EXTERNAL_STORAGE);
    assert t == Terminal(s, env);
    pb.grantedPermissions := t.granted;
    result := Report(t);
  }

  /**
   * The end of the Java chain: only background location is settled, and
   * only when the builder's flag asks for it.
   */
  function TerminalJava(s: Session, env: Platform): Tally {
    Settle(Tally(s.grantedPermissions, DeniedSoFar(s)), s.requireBackgroundLocationPermission,
           env.IsGranted(ACCESS_BACKGROUND_LOCATION), ACCESS_BACKGROUND_LOCATION)
  }

  /**
   * The Java result reports everything granted exactly when nothing was
   * recorded as refused and, if background location was asked for, it is
   * held; it is denied exactly then, and granted otherwise.
   */
  function TerminalResultJava(s: Session, env: Platform): (r: RequestResult)
    ensures r.allGranted <==>
      s.deniedPermissions == [] && s.permanentDeniedPermissions == [] && s.permissionsWontRequest == [] &&
      (s.requireBackgroundLocationPermission ==> env.IsGranted(ACCESS_BACKGROUND_LOCATION))
    ensures r.allGranted <==> r.deniedList == []
    ensures s.requireBackgroundLocationPermission && env.IsGranted(ACCESS_BACKGROUND_LOCATION) ==>
      ACCESS_BACKGROUND_LOCATION in r.grantedList && r.deniedList == DeniedSoFar(s)
    ensures s.requireBackgroundLocationPermission && !env.IsGranted(ACCESS_BACKGROUND_LOCATION) ==>
      r.deniedList == DeniedSoFar(s) + [ACCESS_BACKGROUND_LOCATION] && r.grantedList == s.grantedPermissions
    ensures !s.requireBackgroundLocationPermission ==>
      r.deniedList == DeniedSoFar(s) && r.grantedList == s.grantedPermissions
  {
    Report(TerminalJava(s, env))
  }

  /** `finish` of the Java task. */
  method FinishJava(pb: PermissionBuilder, task: Task, env: Platform) returns (o: FinishOutcome)
    modifies pb`grantedPermissions
    ensures task.next != null ==> o == RunNext(task.next) && pb.grantedPermissions == old(pb.grantedPermissions)
    ensures task.next == null ==>
      pb.grantedPermissions == TerminalJava(old(pb.State()), env).granted &&
      o == Completed(if pb.callbacks.request then Some(TerminalResultJava(old(pb.State()), env)) else None)
  {
    if task.next != null {
      return RunNext(task.next);
    }
    var deniedList := pb.deniedPermissions + pb.permanentDeniedPermissions + pb.permissionsWontRequest;
    if pb.requireBackgroundLocationPermission {
      if env.IsGranted(ACCESS_BACKGROUND_LOCATION) {
        pb.grantedPermissions := Add(pb.grantedPermissions, ACCESS_BACKGROUND_LOCATION);
      } else {
        deniedList := deniedList + [ACCESS_BACKGROUND_LOCATION];
      }
    }
    if pb.callbacks.request {
      o := Completed(Some(RequestResult(deniedList == [], pb.grantedPermissions, deniedList)));
    } else {
      o := Completed(None);
    }
  }
}
