/**
 * The permission builder: the mutable state one permission request shares
 * between its tasks and the invisible fragment, and the builder operations
 * of the current engine (starting the chain, the handle-permission dialog,
 * forwarding to settings).
 *
 * The older builders keep the same kind of state under the same names, and
 * their modules operate on this class too; fields a generation does not have
 * stay at their initial values there.
 */
module Builder {
  import opened Android
  import opened Steps
  import opened OrderedSet
  import opened RequestChain

  /**
   * The builder's state as a value.  Insertion-ordered sets are
   * duplicate-free sequences; the set of normal permissions is enumerated in
   * its iteration order; `currentDialog` says whether a dialog is held.
   */
  datatype Session = Session(
    normalPermissions: seq<string>,
    specialPermissions: set<string>,
    allPermissions: seq<string>,
    requireBackgroundLocationPermission: bool,
    grantedPermissions: seq<string>,
    deniedPermissions: seq<string>,
    permanentDeniedPermissions: seq<string>,
    tempPermanentDeniedPermissions: seq<string>,
    forwardPermissions: seq<string>,
    permissionsWontRequest: seq<string>,
    explainReasonBeforeRequest: bool,
    showDialogCalled: bool,
    currentDialog: bool,
    callbacks: Callbacks)
  {
    predicate ShouldRequestBackgroundLocationPermission() { ACCESS_BACKGROUND_LOCATION in specialPermissions }
    predicate ShouldRequestSystemAlertWindowPermission() { SYSTEM_ALERT_WINDOW in specialPermissions }
    predicate ShouldRequestWriteSettingsPermission() { WRITE_SETTINGS in specialPermissions }
    predicate ShouldRequestManageExternalStoragePermission() { MANAGE_EXTERNAL_STORAGE in specialPermissions }
    predicate ShouldRequestInstallPackagesPermission() { REQUEST_INSTALL_PACKAGES in specialPermissions }
    predicate ShouldRequestNotificationPermission() { POST_NOTIFICATIONS in specialPermissions }
    predicate ShouldRequestBodySensorsBackgroundPermission() { BODY_SENSORS_BACKGROUND in specialPermissions }
  }

  /**
   * The invariant every operation keeps: each insertion-ordered set holds no
   * duplicates, and the only names ever put on the won't-request list are
   * the two background permissions an old platform cannot grant.
   */
  predicate Wf(s: Session) {
    NoDup(s.normalPermissions) && NoDup(s.grantedPermissions) && NoDup(s.deniedPermissions) &&
    NoDup(s.permanentDeniedPermissions) && NoDup(s.tempPermanentDeniedPermissions) &&
    NoDup(s.permissionsWontRequest) &&
    (forall p :: p in s.permissionsWontRequest ==> p == ACCESS_BACKGROUND_LOCATION || p == BODY_SENSORS_BACKGROUND)
  }

  /** The builder's state after an operation, and what the engine does next. */
  datatype Step = Step(session: Session, action: Action)

  /** A builder as created: every collection but the requested names empty, no callback. */
  function Initial(normal: seq<string>, special: set<string>, all: seq<string>): (s: Session)
    requires NoDup(normal)
    ensures Wf(s)
  {
    Session(normal, special, all, false, [], [], [], [], [], [], false, false, false,
            Callbacks(false, false, false, false))
  }

  /** The order in which the current engine chains its tasks. */
  const CurrentChainOrder: seq<TaskKind> :=
    [NormalPermissions, BackgroundLocation, SystemAlertWindow, WriteSettings,
     ManageExternalStorage, InstallPackages, Notification, BodySensorsBackground]

  /** What the handle-permission dialog shows, as far as the engine is concerned. */
  datatype Dialog = Dialog(permissionsToRequest: seq<string>, hasNegativeButton: bool, isPermissionLayoutEmpty: bool)

  /** The wiring of the handle-permission dialog's two buttons. */
  datatype Buttons = Buttons(positive: Action, negative: Option<Action>)

  /** What showing the handle-permission dialog does at once. */
  datatype DialogOutcome =
    | FinishedWithoutDialog            // nothing to ask for: the task finishes, no dialog
    | Shown(finishNow: bool, buttons: Buttons)

  /**
   * The positive button re-requests exactly the dialog's permissions when
   * the dialog explains, and forwards exactly those to settings otherwise;
   * the negative button, when there is one, finishes the task.
   */
  function DialogButtons(showReasonOrGoSettings: bool, dialog: Dialog): (b: Buttons)
    ensures showReasonOrGoSettings ==> b.positive == TaskRequestAgain(dialog.permissionsToRequest)
    ensures !showReasonOrGoSettings ==> b.positive == BuilderForwardToSettings(dialog.permissionsToRequest)
    ensures b.negative.Some? <==> dialog.hasNegativeButton
    ensures b.negative.Some? ==> b.negative.value == TaskFinish
  {
    Buttons(
      if showReasonOrGoSettings then TaskRequestAgain(dialog.permissionsToRequest)
      else BuilderForwardToSettings(dialog.permissionsToRequest),
      if dialog.hasNegativeButton then Some(TaskFinish) else None)
  }

  class PermissionBuilder {
    var normalPermissions: seq<string>
    var specialPermissions: set<string>
    var allPermissions: seq<string>
    var requireBackgroundLocationPermission: bool
    var grantedPermissions: seq<string>
    var deniedPermissions: seq<string>
    var permanentDeniedPermissions: seq<string>
    var tempPermanentDeniedPermissions: seq<string>
    var forwardPermissions: seq<string>
    var permissionsWontRequest: seq<string>
    var explainReasonBeforeRequest: bool
    var showDialogCalled: bool
    var currentDialog: bool
    var callbacks: Callbacks

    function State(): Session
      reads this
    {
      Session(normalPermissions, specialPermissions, allPermissions, requireBackgroundLocationPermission,
              grantedPermissions, deniedPermissions, permanentDeniedPermissions,
              tempPermanentDeniedPermissions, forwardPermissions, permissionsWontRequest,
              explainReasonBeforeRequest, showDialogCalled, currentDialog, callbacks)
    }

    /** The current builder keeps the two sets the mediator classified. */
    constructor (normal: seq<string>, special: set<string>)
      requires NoDup(normal)
      ensures State() == Initial(normal, special, [])
    {
      normalPermissions := normal;
      specialPermissions := special;
      allPermissions := [];
      requireBackgroundLocationPermission := false;
      grantedPermissions := [];
      deniedPermissions := [];
      permanentDeniedPermissions := [];
      tempPermanentDeniedPermissions := [];
      forwardPermissions := [];
      permissionsWontRequest := [];
      explainReasonBeforeRequest := false;
      showDialogCalled := false;
      currentDialog := false;
      callbacks := Callbacks(false, false, false, false);
    }

    /**
     * The support-library builder keeps the normal set, the flag that
     * background location is asked for on its own, and the names the
     * platform cannot grant.
     */
    constructor Flagged(normal: seq<string>, requireBackgroundLocation: bool, wontRequest: seq<string>)
      requires NoDup(normal) && NoDup(wontRequest)
      ensures State() == Initial(normal, {}, []).(requireBackgroundLocationPermission := requireBackgroundLocation,
                                                  permissionsWontRequest := wontRequest)
    {
      normalPermissions := normal;
      specialPermissions := {};
      allPermissions := [];
      requireBackgroundLocationPermission := requireBackgroundLocation;
      grantedPermissions := [];
      deniedPermissions := [];
      permanentDeniedPermissions := [];
      tempPermanentDeniedPermissions := [];
      forwardPermissions := [];
      permissionsWontRequest := wontRequest;
      explainReasonBeforeRequest := false;
      showDialogCalled := false;
      currentDialog := false;
      callbacks := Callbacks(false, false, false, false);
    }

    /** The list-based builders keep the requested names as one list. */
    constructor FromList(all: seq<string>)
      ensures State() == Initial([], {}, all)
    {
      normalPermissions := [];
      specialPermissions := {};
      allPermissions := all;
      requireBackgroundLocationPermission := false;
      grantedPermissions := [];
      deniedPermissions := [];
      permanentDeniedPermissions := [];
      tempPermanentDeniedPermissions := [];
      forwardPermissions := [];
      permissionsWontRequest := [];
      explainReasonBeforeRequest := false;
      showDialogCalled := false;
      currentDialog := false;
      callbacks := Callbacks(false, false, false, false);
    }

    /** Stores the result callback and starts the request. */
    method Request(callback: bool) returns (chain: RequestChain, first: Task)
      modifies this
      ensures State() == old(State()).(callbacks := old(callbacks).(request := callback))
      ensures fresh(chain) && chain.Valid() && chain.Kinds() == CurrentChainOrder
      ensures first == chain.tasks[0] && first.kind == NormalPermissions
    {
      callbacks := callbacks.(request := callback);
      chain, first := StartRequest();
    }

    /**
     * Chains the eight tasks in their fixed order and hands back the head
     * task, whose `request` runs first.
     */
    method StartRequest() returns (chain: RequestChain, first: Task)
      ensures fresh(chain) && chain.Valid() && chain.Kinds() == CurrentChainOrder
      ensures first == chain.tasks[0] && first.kind == NormalPermissions
    {
      chain := new RequestChain();
      AddNewTask(chain, NormalPermissions);
      ghost var t1 := chain.tailTask;
      AddNewTask(chain, BackgroundLocation);
      ghost var t2 := chain.tailTask;
      AddNewTask(chain, SystemAlertWindow);
      ghost var t3 := chain.tailTask;
      AddNewTask(chain, WriteSettings);
      ghost var t4 := chain.tailTask;
      AddNewTask(chain, ManageExternalStorage);
      ghost var t5 := chain.tailTask;
      AddNewTask(chain, InstallPackages);
      ghost var t6 := chain.tailTask;
      AddNewTask(chain, Notification);
      ghost var t7 := chain.tailTask;
      AddNewTask(chain, BodySensorsBackground);
      ghost var t8 := chain.tailTask;
      assert chain.tasks == [t1, t2, t3, t4, t5, t6, t7, t8];
      assert KindsOf(chain.tasks) == CurrentChainOrder;
      var head := chain.RunTask();
      first := head;
    }

    /** Creates the task of the given kind and appends it to the chain. */
    static method AddNewTask(chain: RequestChain, kind: TaskKind)
      requires chain.Valid()
      modifies chain, chain.tailTask
      ensures chain.Valid() && fresh(chain.tailTask)
      ensures chain.tasks == old(chain.tasks) + [chain.tailTask] && chain.tailTask.kind == kind
    {
      var task := new Task(kind);
      chain.AddTaskToChain(task);
    }

    /**
     * Shows the handle-permission dialog.  The flag that a dialog was shown is
     * set in every case; an empty list finishes the task without a dialog; a
     * dialog whose permission layout came out empty is dismissed and the task
     * finishes, but its buttons are wired all the same.
     */
    method ShowHandlePermissionDialog(showReasonOrGoSettings: bool, dialog: Dialog) returns (o: DialogOutcome)
      modifies this
      ensures dialog.permissionsToRequest == [] ==>
        o == FinishedWithoutDialog && State() == old(State()).(showDialogCalled := true)
      ensures dialog.permissionsToRequest != [] ==>
        o == Shown(dialog.isPermissionLayoutEmpty, DialogButtons(showReasonOrGoSettings, dialog)) &&
        State() == old(State()).(showDialogCalled := true, currentDialog := true)
    {
      showDialogCalled := true;
      if dialog.permissionsToRequest == [] {
        return FinishedWithoutDialog;
      }
      currentDialog := true;
      o := Shown(dialog.isPermissionLayoutEmpty, DialogButtons(showReasonOrGoSettings, dialog));
    }

    /**
     * The dialog-fragment overload: the same, except that it neither keeps the
     * dialog nor checks its layout.
     */
    method ShowHandlePermissionDialogFragment(showReasonOrGoSettings: bool, dialog: Dialog) returns (o: DialogOutcome)
      modifies this
      ensures State() == old(State()).(showDialogCalled := true)
      ensures dialog.permissionsToRequest == [] ==> o == FinishedWithoutDialog
      ensures dialog.permissionsToRequest != [] ==> o == Shown(false, DialogButtons(showReasonOrGoSettings, dialog))
    {
      showDialogCalled := true;
      if dialog.permissionsToRequest == [] {
        return FinishedWithoutDialog;
      }
      o := Shown(false, DialogButtons(showReasonOrGoSettings, dialog));
    }

    /** The dismiss listener of a kept dialog forgets it. */
    method OnDialogDismiss()
      modifies this
      ensures State() == old(State()).(currentDialog := false)
    {
      currentDialog := false;
    }

    /**
     * Replaces the names to re-check on return from settings by the given
     * ones, then opens the settings page.
     */
    method ForwardToSettings(permissions: seq<string>) returns (a: Action)
      modifies this
      ensures State() == old(State()).(forwardPermissions := AddAll([], permissions))
      ensures a == LaunchSettings
    {
      forwardPermissions := [];
      forwardPermissions := AddAll(forwardPermissions, permissions);
      a := LaunchSettings;
    }
  }

  /**
   * After forwarding, the names re-checked on return are exactly the
   * forwarded ones, each once, in the order of their first occurrence.
   */
  lemma ForwardedNamesAreTheGivenOnes(permissions: seq<string>)
    ensures NoDup(AddAll([], permissions))
    ensures Elems(AddAll([], permissions)) == Elems(permissions)
    ensures NoDup(permissions) ==> AddAll([], permissions) == permissions
  {
    if NoDup(permissions) {
      AddAllOfNoDupIsIdentityFromEmpty(permissions);
    }
  }
}
