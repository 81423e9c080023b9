/**
 * The background-location task of the support-library generation and of
 * the first chained library generation (the two are the same).  It is
 * driven by the builder's require-flag, which the collection step sets,
 * instead of by the special set, and it does not look at whether
 * background location is held already.
 */
module RequestBackgroundLocationFlagged {
  import opened Android
  import opened Steps
  import opened Builder
  import Current = RequestBackgroundLocationPermission

  /** Fine or coarse location is held: the precondition for asking for background location. */
  predicate ForegroundLocationHeld(env: Platform) {
    env.IsGranted(ACCESS_FINE_LOCATION) || env.IsGranted(ACCESS_COARSE_LOCATION)
  }

  /** Asking again ignores the list it is given and always asks for background location. */
  function RequestAgain(permissions: seq<string>): Action {
    LaunchSpecialRequest(BackgroundLocation)
  }

  /**
   * With the flag set and foreground location held: explain (with
   * `beforeRequest` true) when an explain callback is registered, ask at
   * once otherwise.  In every other case the task finishes.  The builder's
   * state is not touched.
   */
  function Request(s: Session, env: Platform): (a: Action)
    ensures !s.requireBackgroundLocationPermission ==> a == TaskFinish
    ensures a == TaskFinish <==> !s.requireBackgroundLocationPermission || !ForegroundLocationHeld(env)
    ensures a.CallExplainReason? <==>
      s.requireBackgroundLocationPermission && ForegroundLocationHeld(env) && s.callbacks.CanExplain()
    ensures a.CallExplainReason? ==> a == CallExplainReason([ACCESS_BACKGROUND_LOCATION], s.callbacks.ExplainVia(true))
    ensures a == LaunchSpecialRequest(BackgroundLocation) <==>
      s.requireBackgroundLocationPermission && ForegroundLocationHeld(env) && !s.callbacks.CanExplain()
  {
    if s.requireBackgroundLocationPermission && ForegroundLocationHeld(env) then
      if s.callbacks.CanExplain() then CallExplainReason([ACCESS_BACKGROUND_LOCATION], s.callbacks.ExplainVia(true))
      else RequestAgain([])
    else TaskFinish
  }

  /** Whatever list the dialog hands back, asking again does the same. */
  lemma RequestAgainIgnoresList(permissions: seq<string>, other: seq<string>)
    ensures RequestAgain(permissions) == RequestAgain(other) == LaunchSpecialRequest(BackgroundLocation)
  {
  }

  /**
   * The older task asks again for background location that is already held,
   * where the current task (which reads the special set) finishes.
   */
  lemma AsksAgainWhenAlreadyHeld(s: Session, env: Platform)
    requires s.requireBackgroundLocationPermission && s.ShouldRequestBackgroundLocationPermission()
    requires env.IsGranted(ACCESS_BACKGROUND_LOCATION) && env.IsGranted(ACCESS_FINE_LOCATION)
    ensures Request(s, env) != TaskFinish
    ensures Current.RequestSpec(s, env).action == TaskFinish
  {
  }

  /**
   * Where background location is not held and the platform knows it, the
   * flag and the special set agree, the two tasks take the same step.
   */
  lemma AgreesWithCurrentWhenNotHeld(s: Session, env: Platform)
    requires s.requireBackgroundLocationPermission == s.ShouldRequestBackgroundLocationPermission()
    requires env.sdkInt >= Q && !env.IsGranted(ACCESS_BACKGROUND_LOCATION)
    ensures Request(s, env) == Current.RequestSpec(s, env).action
  {
  }
}

/**
 * The support-library builder: a chain of two tasks, normal permissions
 * and then background location, and the handle-permission dialog without
 * the layout check of the current builder.  Forwarding to settings and the
 * dismiss listener are those of the current builder, and so is the overload
 * that shows a `RationaleDialogFragment`: it takes the steps of
 * `PermissionBuilder.ShowHandlePermissionDialogFragment`.
 */
module SupportBuilder {
  import opened Steps
  import opened Builder
  import opened RequestChain

  /** The order in which the support builder chains its tasks. */
  const SupportChainOrder: seq<TaskKind> := [NormalPermissions, BackgroundLocation]

  /** Stores the result callback, chains the two tasks and hands back the head, which runs first. */
  method Request(pb: PermissionBuilder, callback: bool) returns (chain: RequestChain, first: Task)
    modifies pb`callbacks
    ensures pb.callbacks == old(pb.callbacks).(request := callback)
    ensures fresh(chain) && chain.Valid() && chain.Kinds() == SupportChainOrder
    ensures first == chain.tasks[0] && first.kind == NormalPermissions
    ensures first.next == chain.tasks[1] && first.next.kind == BackgroundLocation && first.next.next == null
  {
    pb.callbacks := pb.callbacks.(request := callback);
    chain := new RequestChain();
    PermissionBuilder.AddNewTask(chain, NormalPermissions);
    PermissionBuilder.AddNewTask(chain, BackgroundLocation);
    assert KindsOf(chain.tasks) == SupportChainOrder;
    first := chain.RunTaskNonEmpty();
  }

  /**
   * Shows the handle-permission dialog.  The flag that a dialog was shown is
   * set in every case; an empty list finishes the task without a dialog;
   * otherwise the dialog is kept and shown, and never dismissed at once.
   */
  method ShowHandlePermissionDialog(pb: PermissionBuilder, showReasonOrGoSettings: bool, dialog: Dialog)
    returns (o: DialogOutcome)
    modifies pb`showDialogCalled, pb`currentDialog
    ensures pb.showDialogCalled
    ensures dialog.permissionsToRequest == [] ==> o == FinishedWithoutDialog && pb.currentDialog == old(pb.currentDialog)
    ensures dialog.permissionsToRequest != [] ==>
      o == Shown(false, DialogButtons(showReasonOrGoSettings, dialog)) && pb.currentDialog
  {
    pb.showDialogCalled := true;
    if dialog.permissionsToRequest == [] {
      return FinishedWithoutDialog;
    }
    pb.currentDialog := true;
    o := Shown(false, DialogButtons(showReasonOrGoSettings, dialog));
  }
}
