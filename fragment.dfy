/**
 * The invisible fragment of the current engine.  It launches the platform
 * request a task asks for and, when the result comes back, records it in
 * the builder's sets and decides what runs next: the task's `finish`, the
 * user's explain-reason or forward-to-settings callback, or nothing.
 *
 * A handler that invokes a user callback is split where the callback runs:
 * the handler returns an `Outcome`, the callback then runs (and may show a
 * dialog, which sets the builder's `showDialogCalled`), and the functions
 * after the callback say what the handler does once it returns.
 */
module InvisibleFragment {
  import opened Android
  import opened Steps
  import opened OrderedSet
  import opened Builder
  import opened RequestChain

  /** One entry of the result map: a permission and whether it was granted. */
  type GrantResult = (string, bool)

  /** The keys of a result map are distinct. */
  predicate DistinctKeys(results: seq<GrantResult>) {
    forall i, j :: 0 <= i < j < |results| ==> results[i].0 != results[j].0
  }

  /** The result reported for a name, if the map has an entry for it (the last one wins). */
  function ResultFor(results: seq<GrantResult>, p: string): Option<bool> {
    if results == [] then None
    else if results[|results| - 1].0 == p then Some(results[|results| - 1].1)
    else ResultFor(results[..|results| - 1], p)
  }

  /**
   * The sets one normal-permission round works on: the builder's granted,
   * denied and permanently denied sets, and this round's lists of refusals
   * with and without a rationale.
   */
  datatype Round = Round(
    granted: seq<string>,
    denied: seq<string>,
    permanentDenied: seq<string>,
    showReasonList: seq<string>,
    forwardList: seq<string>)

  /**
   * One reported result.  A grant joins the granted set and leaves both
   * refusal sets; a refusal with a rationale joins the denied set; one without
   * joins the permanently denied set and leaves the denied set.
   */
  function Record(r: Round, permission: string, granted: bool, rationale: bool): Round {
    if granted then
      r.(granted := Add(r.granted, permission), denied := Remove(r.denied, permission),
         permanentDenied := Remove(r.permanentDenied, permission))
    else if rationale then
      r.(showReasonList := r.showReasonList + [permission], denied := Add(r.denied, permission))
    else
      r.(forwardList := r.forwardList + [permission], permanentDenied := Add(r.permanentDenied, permission),
         denied := Remove(r.denied, permission))
  }

  /** All reported results, in the map's iteration order. */
  function Recorded(r: Round, results: seq<GrantResult>, env: Platform): Round
    decreases |results|
  {
    if results == [] then r
    else
      var last := results[|results| - 1];
      Record(Recorded(r, results[..|results| - 1], env), last.0, last.1,
             env.ShouldShowRequestPermissionRationale(last.0))
  }

  /** The live re-check of one refused name: if it is held now, it moves from denied to granted. */
  function Recheck(r: Round, permission: string, held: bool): Round {
    if held then r.(denied := Remove(r.denied, permission), granted := Add(r.granted, permission)) else r
  }

  /** The live re-check of every name of the snapshot, in order. */
  function Rechecked(r: Round, snapshot: seq<string>, env: Platform): Round
    decreases |snapshot|
  {
    if snapshot == [] then r
    else
      var last := snapshot[|snapshot| - 1];
      Recheck(Rechecked(r, snapshot[..|snapshot| - 1], env), last, env.IsGranted(last))
  }

  /** A round starts with the granted set cleared and the builder's refusal sets. */
  function Opening(s: Session): Round {
    Round([], s.deniedPermissions, s.permanentDeniedPermissions, [], [])
  }

  /** The sets once the results are recorded and the refused names re-checked. */
  function Settled(s: Session, results: seq<GrantResult>, env: Platform): Round {
    var r := Recorded(Opening(s), results, env);
    Rechecked(r, r.denied + r.permanentDenied, env)
  }

  /** What a result handler does right away. */
  datatype Outcome =
    | FinishNow                                                               // the task finishes at once
    | Explain(permissions: seq<string>, call: ExplainCall, parked: seq<string>) // the explain-reason callback runs
    | Forward(permissions: seq<string>)                                       // the forward-to-settings callback runs
    | Unhandled                                                               // no callback applies

  /** A handler's effect on the builder and its outcome. */
  datatype Handled = Handled(session: Session, outcome: Outcome)

  /**
   * The decision after a normal round.  Everything counts as granted when the
   * granted set is as large as the normal set.  Otherwise the explain
   * callback has priority: it runs when registered and this round had a
   * refusal with a rationale, and receives the whole denied set.  Else the
   * forward callback runs when registered and there are permanent refusals
   * from this round or parked from an earlier one, and receives the whole
   * permanently denied set.
   */
  function Decide(s: Session, r: Round): (o: Outcome)
    ensures o.FinishNow? <==> |r.granted| == |s.normalPermissions|
    ensures o.Explain? <==> !o.FinishNow? && s.callbacks.CanExplain() && r.showReasonList != []
    ensures o.Explain? ==>
      o.permissions == r.denied && o.call == s.callbacks.ExplainVia(false) && o.parked == r.forwardList
    ensures o.Forward? <==>
      !o.FinishNow? && !o.Explain? && s.callbacks.forwardToSettings &&
      (r.forwardList != [] || s.tempPermanentDeniedPermissions != [])
    ensures o.Forward? ==> o.permissions == r.permanentDenied
  {
    if |r.granted| == |s.normalPermissions| then FinishNow
    else if s.callbacks.CanExplain() && r.showReasonList != [] then
      Explain(r.denied, s.callbacks.ExplainVia(false), r.forwardList)
    else if s.callbacks.forwardToSettings && (r.forwardList != [] || s.tempPermanentDeniedPermissions != []) then
      Forward(r.permanentDenied)
    else Unhandled
  }

  /**
   * The normal-permission result handler up to the callback: the builder's
   * three sets become the settled ones, and the parked permanent refusals
   * are dropped when the forward callback is about to run.
   */
  function NormalResult(s: Session, results: seq<GrantResult>, env: Platform): Handled {
    var r := Settled(s, results, env);
    var o := Decide(s, r);
    Handled(
      s.(grantedPermissions := r.granted, deniedPermissions := r.denied, permanentDeniedPermissions := r.permanentDenied,
         tempPermanentDeniedPermissions := if o.Forward? then [] else s.tempPermanentDeniedPermissions),
      o)
  }

  /** After the explain callback returns, this round's permanent refusals are parked. */
  function Parked(s: Session, o: Outcome): (t: Session)
    ensures o.Explain? ==> forall p :: p in t.tempPermanentDeniedPermissions <==>
      p in s.tempPermanentDeniedPermissions || p in o.parked
    ensures !o.Explain? ==> t == s
    ensures t == s.(tempPermanentDeniedPermissions := t.tempPermanentDeniedPermissions)
  {
    if o.Explain? then s.(tempPermanentDeniedPermissions := AddAll(s.tempPermanentDeniedPermissions, o.parked))
    else s
  }

  /**
   * Whether the task finishes once the handler's callback has returned: it
   * does unless a callback ran and the callback showed a dialog.
   */
  predicate FinishesAfterCallback(o: Outcome, showDialogCalled: bool) {
    o.FinishNow? || o.Unhandled? || !showDialogCalled
  }

  /**
   * A normal round that did not grant everything ends by clearing the flag
   * that a dialog was shown, after the task has finished or not.
   */
  function EndOfRound(s: Session, o: Outcome): (t: Session)
    ensures !o.FinishNow? ==> !t.showDialogCalled
    ensures t == s.(showDialogCalled := t.showDialogCalled)
    ensures o.FinishNow? ==> t == s
  {
    if o.FinishNow? then s else s.(showDialogCalled := false)
  }

  /**
   * The result of background location or background body sensors, asked for
   * alone.  Granted: recorded and finish.  Refused with a rationale: the
   * explain callback gets that name, if registered.  Refused without one: the
   * forward callback gets it, if registered.  The dialog flag is not reset.
   */
  function SingleResult(s: Session, name: string, granted: bool, env: Platform): (h: Handled)
    ensures granted ==>
      h.session == s.(grantedPermissions := Add(s.grantedPermissions, name),
                      deniedPermissions := Remove(s.deniedPermissions, name),
                      permanentDeniedPermissions := Remove(s.permanentDeniedPermissions, name)) &&
      h.outcome == FinishNow
    ensures !granted ==> h.session == s
    ensures h.outcome.Explain? <==>
      !granted && s.callbacks.CanExplain() && env.ShouldShowRequestPermissionRationale(name)
    ensures h.outcome.Explain? ==> h.outcome == Explain([name], s.callbacks.ExplainVia(false), [])
    ensures h.outcome.Forward? <==>
      !granted && s.callbacks.forwardToSettings && !env.ShouldShowRequestPermissionRationale(name) &&
      !h.outcome.Explain?
    ensures h.outcome.Forward? ==> h.outcome == Forward([name])
  {
    if granted then
      Handled(s.(grantedPermissions := Add(s.grantedPermissions, name),
                 deniedPermissions := Remove(s.deniedPermissions, name),
                 permanentDeniedPermissions := Remove(s.permanentDeniedPermissions, name)), FinishNow)
    else
      var shouldShowRationale := env.ShouldShowRequestPermissionRationale(name);
      if s.callbacks.CanExplain() && shouldShowRationale then Handled(s, Explain([name], s.callbacks.ExplainVia(false), []))
      else if s.callbacks.forwardToSettings && !shouldShowRationale then Handled(s, Forward([name]))
      else Handled(s, Unhandled)
  }

  /** The callback a handler's outcome invokes, if any. */
  function CallbackOf(o: Outcome): (a: Action)
    ensures a.CallExplainReason? <==> o.Explain?
    ensures a.CallForwardToSettings? <==> o.Forward?
    ensures o.Explain? ==> a.permissions == o.permissions
    ensures o.Forward? ==> a.permissions == o.permissions
  {
    match o
    case Explain(permissions, call, _) => CallExplainReason(permissions, call)
    case Forward(permissions) => CallForwardToSettings(permissions)
    case _ => Nothing
  }

  /** The special permission whose settings screen a task kind opens. */
  predicate IsSettingsScreenKind(kind: TaskKind) {
    kind.SystemAlertWindow? || kind.WriteSettings? || kind.ManageExternalStorage? || kind.InstallPackages? ||
    kind.Notification?
  }

  function ScreenPermission(kind: TaskKind): string
    requires IsSettingsScreenKind(kind)
  {
    match kind
    case SystemAlertWindow => SYSTEM_ALERT_WINDOW
    case WriteSettings => WRITE_SETTINGS
    case ManageExternalStorage => MANAGE_EXTERNAL_STORAGE
    case InstallPackages => REQUEST_INSTALL_PACKAGES
    case Notification => POST_NOTIFICATIONS
  }

  /** The SDK level from which the screen exists: M, M, R, O and O. */
  function ScreenSince(kind: TaskKind): int
    requires IsSettingsScreenKind(kind)
  {
    match kind
    case SystemAlertWindow => M
    case WriteSettings => M
    case ManageExternalStorage => R
    case InstallPackages => O
    case Notification => O
  }

  /** The live check of the screen's switch. */
  predicate ScreenHeld(kind: TaskKind, env: Platform)
    requires IsSettingsScreenKind(kind)
  {
    match kind
    case SystemAlertWindow => env.canDrawOverlays
    case WriteSettings => env.canWrite
    case ManageExternalStorage => env.isExternalStorageManager
    case InstallPackages => env.canRequestPackageInstalls
    case Notification => env.areNotificationsEnabled
  }

  /**
   * Return from a special settings screen.  Below the screen's SDK level, or
   * with the switch on, the task finishes; otherwise the explain callback
   * gets the permission (with `beforeRequest` false) when one is registered,
   * and when none is, nothing happens at all: the task neither finishes nor
   * asks again.  No set changes.
   */
  function ScreenResult(kind: TaskKind, s: Session, env: Platform): (a: Action)
    requires IsSettingsScreenKind(kind)
    ensures a == TaskFinish <==> env.sdkInt < ScreenSince(kind) || ScreenHeld(kind, env)
    ensures a.CallExplainReason? <==>
      env.sdkInt >= ScreenSince(kind) && !ScreenHeld(kind, env) && s.callbacks.CanExplain()
    ensures a.CallExplainReason? ==> a == CallExplainReason([ScreenPermission(kind)], s.callbacks.ExplainVia(false))
    ensures a == Nothing <==> env.sdkInt >= ScreenSince(kind) && !ScreenHeld(kind, env) && !s.callbacks.CanExplain()
  {
    if env.sdkInt >= ScreenSince(kind) then
      if ScreenHeld(kind, env) then TaskFinish
      else if s.callbacks.CanExplain() then CallExplainReason([ScreenPermission(kind)], s.callbacks.ExplainVia(false))
      else Nothing
    else TaskFinish
  }

  /** The reported result for a name is the one of its entry. */
  lemma {:induction false} ResultForEntry(results: seq<GrantResult>, p: string, b: bool)
    ensures ResultFor(results, p) == Some(b) ==> (p, b) in results
    ensures DistinctKeys(results) && (p, b) in results ==> ResultFor(results, p) == Some(b)
    ensures ResultFor(results, p) == None ==> (p, b) !in results
    ensures (forall i :: 0 <= i < |results| ==> results[i].0 != p) ==> ResultFor(results, p) == None
  {
    if results != [] {
      var init := results[..|results| - 1];
      ResultForEntry(init, p, b);
      InPrefixOrLast(results, (p, b));
      if DistinctKeys(results) && (p, b) in init {
        var i :| 0 <= i < |init| && init[i] == (p, b);
        assert results[i] == (p, b);
        assert DistinctKeys(init);
      }
    }
  }

  /** Where one recorded result leaves a name. */
  lemma RecordStep(r: Round, q: string, granted: bool, rationale: bool, p: string)
    ensures var t := Record(r, q, granted, rationale);
      (p in t.granted <==> p in r.granted || (q == p && granted)) &&
      (p in t.showReasonList <==> p in r.showReasonList || (q == p && !granted && rationale)) &&
      (p in t.forwardList <==> p in r.forwardList || (q == p && !granted && !rationale)) &&
      (p in t.denied <==> if q == p then !granted && rationale else p in r.denied) &&
      (p in t.permanentDenied <==>
        if q == p then !granted && (!rationale || p in r.permanentDenied) else p in r.permanentDenied)
  {
  }

  /**
   * Recording never drops a grant: a name is granted afterwards exactly when
   * it was before or some entry grants it.
   */
  lemma {:induction false} RecordedGranted(r: Round, results: seq<GrantResult>, env: Platform, p: string)
    ensures p in Recorded(r, results, env).granted <==> p in r.granted || (p, true) in results
  {
    if results != [] {
      var init := results[..|results| - 1];
      var last := results[|results| - 1];
      var prev := Recorded(r, init, env);
      RecordedGranted(r, init, env, p);
      assert Recorded(r, results, env) == Record(prev, last.0, last.1, env.ShouldShowRequestPermissionRationale(last.0));
      RecordStep(prev, last.0, last.1, env.ShouldShowRequestPermissionRationale(last.0), p);
      InPrefixOrLast(results, (p, true));
    }
  }

  /**
   * A name is on this round's rationale list, or on its forward list,
   * exactly when it was or some entry refuses it with, or without, a
   * rationale.
   */
  lemma {:induction false} RecordedLists(r: Round, results: seq<GrantResult>, env: Platform, p: string)
    ensures p in Recorded(r, results, env).showReasonList <==>
      p in r.showReasonList || (env.ShouldShowRequestPermissionRationale(p) && (p, false) in results)
    ensures p in Recorded(r, results, env).forwardList <==>
      p in r.forwardList || (!env.ShouldShowRequestPermissionRationale(p) && (p, false) in results)
  {
    if results != [] {
      var init := results[..|results| - 1];
      var last := results[|results| - 1];
      var prev := Recorded(r, init, env);
      RecordedLists(r, init, env, p);
      assert Recorded(r, results, env) == Record(prev, last.0, last.1, env.ShouldShowRequestPermissionRationale(last.0));
      RecordStep(prev, last.0, last.1, env.ShouldShowRequestPermissionRationale(last.0), p);
      InPrefixOrLast(results, (p, false));
    }
  }

  /**
   * Where a recorded name ends up among the refusals: a name last reported
   * granted is in neither refusal set; one refused with a rationale is
   * denied, and (each name having one entry) permanently denied only if it
   * already was; one refused without a rationale is permanently denied and
   * not denied; a name without an entry keeps its place.
   */
  lemma {:induction false} RecordedSides(r: Round, results: seq<GrantResult>, env: Platform, p: string)
    ensures ResultFor(results, p) == Some(true) ==>
      p !in Recorded(r, results, env).denied && p !in Recorded(r, results, env).permanentDenied
    ensures ResultFor(results, p) == Some(false) && env.ShouldShowRequestPermissionRationale(p) ==>
      p in Recorded(r, results, env).denied
    ensures DistinctKeys(results) && ResultFor(results, p) == Some(false) && env.ShouldShowRequestPermissionRationale(p)
      ==> (p in Recorded(r, results, env).permanentDenied <==> p in r.permanentDenied)
    ensures ResultFor(results, p) == Some(false) && !env.ShouldShowRequestPermissionRationale(p) ==>
      p in Recorded(r, results, env).permanentDenied && p !in Recorded(r, results, env).denied
    ensures ResultFor(results, p) == None ==>
      (p in Recorded(r, results, env).denied <==> p in r.denied) &&
      (p in Recorded(r, results, env).permanentDenied <==> p in r.permanentDenied)
  {
    if results != [] {
      var init := results[..|results| - 1];
      var last := results[|results| - 1];
      var prev := Recorded(r, init, env);
      RecordedSides(r, init, env, p);
      assert Recorded(r, results, env) == Record(prev, last.0, last.1, env.ShouldShowRequestPermissionRationale(last.0));
      RecordStep(prev, last.0, last.1, env.ShouldShowRequestPermissionRationale(last.0), p);
      if DistinctKeys(results) {
        assert DistinctKeys(init);
        if results[|results| - 1].0 == p {
          assert forall i :: 0 <= i < |init| ==> init[i].0 != p by {
            forall i | 0 <= i < |init| ensures init[i].0 != p {
              assert init[i] == results[i];
            }
          }
          ResultForEntry(init, p, false);
        }
      }
    }
  }

  /**
   * The re-check moves a held name of the snapshot from denied to granted;
   * it never touches the permanently denied set or this round's lists.
   */
  lemma {:induction false} RecheckedMembers(r: Round, snapshot: seq<string>, env: Platform, p: string)
    ensures p in Rechecked(r, snapshot, env).granted <==> p in r.granted || (p in snapshot && env.IsGranted(p))
    ensures p in Rechecked(r, snapshot, env).denied <==> p in r.denied && !(p in snapshot && env.IsGranted(p))
    ensures Rechecked(r, snapshot, env) == r.(granted := Rechecked(r, snapshot, env).granted,
                                              denied := Rechecked(r, snapshot, env).denied)
  {
    if snapshot != [] {
      var init := snapshot[..|snapshot| - 1];
      RecheckedMembers(r, init, env, p);
      InPrefixOrLast(snapshot, p);
    }
  }

  /** Recording and re-checking keep every set duplicate-free. */
  lemma {:induction false} RecordedNoDup(r: Round, results: seq<GrantResult>, env: Platform)
    requires NoDup(r.granted) && NoDup(r.denied) && NoDup(r.permanentDenied)
    ensures NoDup(Recorded(r, results, env).granted) && NoDup(Recorded(r, results, env).denied) &&
      NoDup(Recorded(r, results, env).permanentDenied)
  {
    if results != [] {
      RecordedNoDup(r, results[..|results| - 1], env);
    }
  }

  lemma {:induction false} RecheckedNoDup(r: Round, snapshot: seq<string>, env: Platform)
    requires NoDup(r.granted) && NoDup(r.denied) && NoDup(r.permanentDenied)
    ensures NoDup(Rechecked(r, snapshot, env).granted) && NoDup(Rechecked(r, snapshot, env).denied) &&
      NoDup(Rechecked(r, snapshot, env).permanentDenied)
  {
    if snapshot != [] {
      RecheckedNoDup(r, snapshot[..|snapshot| - 1], env);
    }
  }

  /** The normal-result handler keeps the builder's sets duplicate-free. */
  lemma NormalResultKeepsWf(s: Session, results: seq<GrantResult>, env: Platform)
    requires Wf(s)
    ensures Wf(NormalResult(s, results, env).session)
  {
    var r := Recorded(Opening(s), results, env);
    RecordedNoDup(Opening(s), results, env);
    RecheckedNoDup(r, r.denied + r.permanentDenied, env);
  }

  /**
   * The builder's sets after the normal-result handler.  The granted set
   * was cleared and holds exactly this round's reported grants and the
   * refused names that the platform now reports held.  A reported grant
   * leaves both refusal sets.  The re-check takes a held name off the denied
   * set but leaves it on the permanently denied set, so a name can end up
   * both granted and permanently denied.
   */
  lemma NormalResultSets(s: Session, results: seq<GrantResult>, env: Platform, p: string)
    ensures var r := Recorded(Opening(s), results, env);
      var t := NormalResult(s, results, env).session;
      (p in t.grantedPermissions <==>
        (p, true) in results ||
        ((p in r.denied || p in r.permanentDenied) && env.IsGranted(p))) &&
      (p in t.deniedPermissions <==> p in r.denied && !env.IsGranted(p)) &&
      t.permanentDeniedPermissions == r.permanentDenied
    ensures ResultFor(results, p) == Some(true) ==>
      p !in NormalResult(s, results, env).session.deniedPermissions &&
      p !in NormalResult(s, results, env).session.permanentDeniedPermissions
    ensures ResultFor(results, p) == Some(false) && !env.ShouldShowRequestPermissionRationale(p) ==>
      p in NormalResult(s, results, env).session.permanentDeniedPermissions &&
      p !in NormalResult(s, results, env).session.deniedPermissions
    ensures ResultFor(results, p) == Some(false) && env.ShouldShowRequestPermissionRationale(p) ==>
      (p in NormalResult(s, results, env).session.deniedPermissions <==> !env.IsGranted(p))
  {
    var r := Recorded(Opening(s), results, env);
    RecordedGranted(Opening(s), results, env, p);
    RecordedSides(Opening(s), results, env, p);
    RecheckedMembers(r, r.denied + r.permanentDenied, env, p);
  }

  /**
   * A name permanently denied earlier, switched on in the settings since,
   * and not part of this round: the re-check grants it, and it stays
   * permanently denied.
   */
  lemma GrantedAndPermanentlyDenied()
    ensures var camera := "android.permission.CAMERA";
      var s := Initial([ACCESS_FINE_LOCATION, camera], {}, []).(permanentDeniedPermissions := [camera]);
      var env := Platform(Q, Q, {ACCESS_FINE_LOCATION, camera}, {}, false, false, false, false, false);
      var t := NormalResult(s, [(ACCESS_FINE_LOCATION, true)], env).session;
      t.grantedPermissions == [ACCESS_FINE_LOCATION, camera] && t.permanentDeniedPermissions == [camera]
  {
    var camera := "android.permission.CAMERA";
    var s := Initial([ACCESS_FINE_LOCATION, camera], {}, []).(permanentDeniedPermissions := [camera]);
    var env := Platform(Q, Q, {ACCESS_FINE_LOCATION, camera}, {}, false, false, false, false, false);
    var results := [(ACCESS_FINE_LOCATION, true)];
    assert camera != ACCESS_FINE_LOCATION;
    assert results[..0] == [];
    assert Opening(s) == Round([], [], [camera], [], []);
    assert Recorded(Opening(s), results[..0], env) == Opening(s);
    assert Remove([camera], ACCESS_FINE_LOCATION) == [camera];
    var r := Recorded(Opening(s), results, env);
    assert r == Round([ACCESS_FINE_LOCATION], [], [camera], [], []);
    var snapshot := r.denied + r.permanentDenied;
    assert snapshot == [camera] && snapshot[..0] == [];
    assert Rechecked(r, snapshot[..0], env) == r;
    assert Add(r.granted, camera) == [ACCESS_FINE_LOCATION, camera];
    assert Rechecked(r, snapshot, env) == Recheck(r, camera, true);
  }

  /**
   * Each name has one entry, every normal permission is reported granted,
   * nothing else is reported, and the refusal sets hold only normal
   * permissions.
   */
  ghost predicate EveryNormalReportedGranted(s: Session, results: seq<GrantResult>) {
    DistinctKeys(results) &&
    (forall p :: p in s.normalPermissions <==> ResultFor(results, p) == Some(true)) &&
    (forall i :: 0 <= i < |results| ==> results[i].0 in s.normalPermissions) &&
    (forall p :: p in s.deniedPermissions || p in s.permanentDeniedPermissions ==> p in s.normalPermissions)
  }

  /**
   * When every normal permission is reported granted, nothing else is
   * reported, and the refusal sets hold only normal permissions, the
   * handler finishes the task at once.
   */
  lemma ReportedGrantsFinish(s: Session, results: seq<GrantResult>, env: Platform)
    requires Wf(s) && EveryNormalReportedGranted(s, results)
    ensures NormalResult(s, results, env).outcome == FinishNow
  {
    ReportedGrantsCount(s, results, env);
  }

  lemma ReportedGrantsCount(s: Session, results: seq<GrantResult>, env: Platform)
    requires Wf(s) && EveryNormalReportedGranted(s, results)
    ensures |Settled(s, results, env).granted| == |s.normalPermissions|
  {
    var g := Settled(s, results, env).granted;
    NormalResultKeepsWf(s, results, env);
    assert NoDup(g);
    forall p
      ensures p in g <==> p in s.normalPermissions
    {
      ReportedGrantsMember(s, results, env, p);
    }
    assert Elems(g) == Elems(s.normalPermissions);
    NoDupCard(g);
    NoDupCard(s.normalPermissions);
  }

  lemma ReportedGrantsMember(s: Session, results: seq<GrantResult>, env: Platform, p: string)
    requires DistinctKeys(results)
    requires p in s.normalPermissions <==> ResultFor(results, p) == Some(true)
    requires forall i :: 0 <= i < |results| ==> results[i].0 in s.normalPermissions
    requires p in s.deniedPermissions || p in s.permanentDeniedPermissions ==> p in s.normalPermissions
    ensures p in NormalResult(s, results, env).session.grantedPermissions <==> p in s.normalPermissions
  {
    var r := Recorded(Opening(s), results, env);
    NormalResultSets(s, results, env, p);
    RecordedSides(Opening(s), results, env, p);
    ResultForEntry(results, p, true);
    ResultForEntry(results, p, false);
  }

  /**
   * The background handlers do not reset the dialog flag.  When it is still
   * set from a dialog shown earlier in the request, a refusal that reaches a
   * callback keeps the task open even if that callback shows nothing.
   */
  lemma SingleResultKeepsStaleFlag(s: Session, name: string, granted: bool, env: Platform)
    requires s.showDialogCalled
    ensures var h := SingleResult(s, name, granted, env);
      h.session.showDialogCalled &&
      (h.outcome.Explain? || h.outcome.Forward? ==> !FinishesAfterCallback(h.outcome, h.session.showDialogCalled))
  {
  }

  /** What a `request…Now` method leads to. */
  datatype Launch =
    | RuntimeDialog(permissions: set<string>)  // the platform's runtime-permission dialog
    | SettingsScreen(kind: TaskKind)           // the special permission's settings screen
    | AtOnce(next: Action)                     // no launch: the result handler runs at once, with this outcome

  /**
   * Opening a special settings screen.  Overlay, write-settings and
   * all-files access open it only from their SDK level on and while the
   * switch is off; install-packages and notifications open it from Android O
   * on.  Otherwise the result handler runs at once; for notifications below
   * O that is the install-packages handler.
   */
  function ScreenNow(kind: TaskKind, s: Session, env: Platform): (l: Launch)
    requires IsSettingsScreenKind(kind)
    ensures l.SettingsScreen? ==> l.kind == kind
  {
    match kind
    case SystemAlertWindow =>
      if env.sdkInt >= M && !env.canDrawOverlays then SettingsScreen(kind) else AtOnce(ScreenResult(kind, s, env))
    case WriteSettings =>
      if env.sdkInt >= M && !env.canWrite then SettingsScreen(kind) else AtOnce(ScreenResult(kind, s, env))
    case ManageExternalStorage =>
      if env.sdkInt >= R && !env.isExternalStorageManager then SettingsScreen(kind) else AtOnce(ScreenResult(kind, s, env))
    case InstallPackages =>
      if env.sdkInt >= O then SettingsScreen(kind) else AtOnce(ScreenResult(kind, s, env))
    case Notification =>
      if env.sdkInt >= O then SettingsScreen(kind) else AtOnce(ScreenResult(InstallPackages, s, env))
  }

  /**
   * When no screen opens, the task goes straight to `finish`: the handler
   * run at once never reaches a callback.  In particular, the
   * install-packages handler that the notification launcher runs below O
   * finishes, as the notification handler itself would.  Overlay,
   * write-settings and all-files access open their screen only while the
   * switch is off.
   */
  lemma ScreenNowFinishesWithoutScreen(kind: TaskKind, s: Session, env: Platform)
    requires IsSettingsScreenKind(kind)
    ensures ScreenNow(kind, s, env).AtOnce? ==> ScreenNow(kind, s, env).next == TaskFinish
    ensures kind.Notification? && env.sdkInt < O ==>
      ScreenNow(kind, s, env) == AtOnce(ScreenResult(Notification, s, env))
    ensures ScreenNow(kind, s, env).SettingsScreen? ==> env.sdkInt >= ScreenSince(kind)
    ensures ScreenNow(kind, s, env).SettingsScreen? && kind != InstallPackages && kind != Notification ==>
      !ScreenHeld(kind, env)
  {
  }

  /**
   * Records the reported results, one entry at a time, on the round's own
   * sets.
   */
  method RecordResults(start: Round, results: seq<GrantResult>, env: Platform) returns (r: Round)
    ensures r == Recorded(start, results, env)
  {
    var granted, denied, permanentDenied := start.granted, start.denied, start.permanentDenied;
    var showReasonList, forwardList := start.showReasonList, start.forwardList;
    var i := 0;
    while i < |results|
      invariant 0 <= i <= |results|
      invariant Round(granted, denied, permanentDenied, showReasonList, forwardList) == Recorded(start, results[..i], env)
    {
      var permission := results[i].0;
      assert results[..i + 1][..i] == results[..i];
      if results[i].1 {
        granted := Add(granted, permission);
        denied := Remove(denied, permission);
        permanentDenied := Remove(permanentDenied, permission);
      } else {
        var shouldShowRationale := env.ShouldShowRequestPermissionRationale(permission);
        if shouldShowRationale {
          showReasonList := showReasonList + [permission];
          denied := Add(denied, permission);
        } else {
          forwardList := forwardList + [permission];
          permanentDenied := Add(permanentDenied, permission);
          denied := Remove(denied, permission);
        }
      }
      i := i + 1;
    }
    assert results[..i] == results;
    r := Round(granted, denied, permanentDenied, showReasonList, forwardList);
  }

  /** Re-checks, in order, every name of a snapshot of the refusal sets. */
  method RecheckDenied(start: Round, snapshot: seq<string>, env: Platform) returns (r: Round)
    ensures r == Rechecked(start, snapshot, env)
  {
    var granted, denied := start.granted, start.denied;
    var j := 0;
    while j < |snapshot|
      invariant 0 <= j <= |snapshot|
      invariant start.(granted := granted, denied := denied) == Rechecked(start, snapshot[..j], env)
    {
      var permission := snapshot[j];
      assert snapshot[..j + 1][..j] == snapshot[..j];
      if env.IsGranted(permission) {
        denied := Remove(denied, permission);
        granted := Add(granted, permission);
      }
      j := j + 1;
    }
    assert snapshot[..j] == snapshot;
    r := start.(granted := granted, denied := denied);
  }

  /** The normal-permission result handler up to the callback, on a live builder. */
  method ApplyNormalResult(pb: PermissionBuilder, results: seq<GrantResult>, env: Platform) returns (o: Outcome)
    modifies pb`grantedPermissions, pb`deniedPermissions, pb`permanentDeniedPermissions, pb`tempPermanentDeniedPermissions
    ensures o == NormalResult(old(pb.State()), results, env).outcome
    ensures pb.grantedPermissions == NormalResult(old(pb.State()), results, env).session.grantedPermissions
    ensures pb.deniedPermissions == NormalResult(old(pb.State()), results, env).session.deniedPermissions
    ensures pb.permanentDeniedPermissions == NormalResult(old(pb.State()), results, env).session.permanentDeniedPermissions
    ensures pb.tempPermanentDeniedPermissions ==
      NormalResult(old(pb.State()), results, env).session.tempPermanentDeniedPermissions
  {
    var s := pb.State();
    var recorded := RecordResults(Opening(s), results, env);
    var snapshot := recorded.denied + recorded.permanentDenied;
    var r := RecheckDenied(recorded, snapshot, env);
    assert r == Settled(s, results, env);
    pb.grantedPermissions := r.granted;
    pb.deniedPermissions := r.denied;
    pb.permanentDeniedPermissions := r.permanentDenied;
    if |r.granted| == |s.normalPermissions| {
      o := FinishNow;
    } else if s.callbacks.CanExplain() && r.showReasonList != [] {
      o := Explain(r.denied, s.callbacks.ExplainVia(false), r.forwardList);
    } else if s.callbacks.forwardToSettings && (r.forwardList != [] || s.tempPermanentDeniedPermissions != []) {
      pb.tempPermanentDeniedPermissions := [];
      o := Forward(r.permanentDenied);
    } else {
      o := Unhandled;
    }
  }

  // The Java generation of the fragment receives the platform's result as two
  // parallel arrays and dispatches on request codes.

  const REQUEST_NORMAL_PERMISSIONS: int := 1
  const REQUEST_BACKGROUND_LOCATION_PERMISSION: int := 2
  const FORWARD_TO_SETTINGS: int := 1
  const ACTION_MANAGE_OVERLAY_PERMISSION: int := 2

  /** The parallel name and grant-code arrays as one result map, in array order. */
  function Zip(permissions: seq<string>, grantResults: seq<int>): (results: seq<GrantResult>)
    requires |permissions| <= |grantResults|
    ensures |results| == |permissions|
    ensures forall i :: 0 <= i < |permissions| ==>
      results[i] == (permissions[i], grantResults[i] == PERMISSION_GRANTED)
  {
    if permissions == [] then []
    else Zip(permissions[..|permissions| - 1], grantResults) +
         [(permissions[|permissions| - 1], grantResults[|permissions| - 1] == PERMISSION_GRANTED)]
  }

  /**
   * The Java overlay launcher has no SDK test of its own: it opens the
   * screen unless overlays are already allowed, in which case the return
   * handler runs at once.
   */
  function ScreenNowJava(s: Session, env: Platform): (l: Launch)
    ensures l.SettingsScreen? <==> !env.canDrawOverlays
    ensures l.SettingsScreen? ==> l.kind == SystemAlertWindow
    ensures l.AtOnce? ==> l.next == ScreenResult(SystemAlertWindow, s, env)
    ensures env.sdkInt >= M && l.AtOnce? ==> l.next == TaskFinish
  {
    if !env.canDrawOverlays then SettingsScreen(SystemAlertWindow)
    else AtOnce(ScreenResult(SystemAlertWindow, s, env))
  }

  /** Records the parallel arrays, index by index, as the Java handler does. */
  method RecordArrays(start: Round, permissions: seq<string>, grantResults: seq<int>, env: Platform)
    returns (r: Round)
    requires |permissions| <= |grantResults|
    ensures r == Recorded(start, Zip(permissions, grantResults), env)
  {
    var granted, denied, permanentDenied := start.granted, start.denied, start.permanentDenied;
    var showReasonList, forwardList := start.showReasonList, start.forwardList;
    var i := 0;
    while i < |permissions|
      invariant 0 <= i <= |permissions|
      invariant Round(granted, denied, permanentDenied, showReasonList, forwardList) ==
        Recorded(start, Zip(permissions[..i], grantResults), env)
    {
      var permission := permissions[i];
      ghost var done := Zip(permissions[..i], grantResults);
      assert permissions[..i + 1][..i] == permissions[..i];
      assert Zip(permissions[..i + 1], grantResults) == done + [(permission, grantResults[i] == PERMISSION_GRANTED)];
      assert (done + [(permission, grantResults[i] == PERMISSION_GRANTED)])[..|done|] == done;
      if grantResults[i] == PERMISSION_GRANTED {
        granted := Add(granted, permission);
        denied := Remove(denied, permission);
        permanentDenied := Remove(permanentDenied, permission);
      } else {
        var shouldShowRationale := env.ShouldShowRequestPermissionRationale(permission);
        if shouldShowRationale {
          showReasonList := showReasonList + [permissions[i]];
          denied := Add(denied, permission);
        } else {
          forwardList := forwardList + [permissions[i]];
          permanentDenied := Add(permanentDenied, permission);
          denied := Remove(denied, permission);
        }
      }
      i := i + 1;
    }
    assert permissions[..i] == permissions;
    r := Round(granted, denied, permanentDenied, showReasonList, forwardList);
  }

  /** The Java normal-result handler up to the callback, on a live builder. */
  method ApplyNormalResultJava(pb: PermissionBuilder, permissions: seq<string>, grantResults: seq<int>, env: Platform)
    returns (o: Outcome)
    requires |permissions| <= |grantResults|
    modifies pb`grantedPermissions, pb`deniedPermissions, pb`permanentDeniedPermissions, pb`tempPermanentDeniedPermissions
    ensures o == NormalResult(old(pb.State()), Zip(permissions, grantResults), env).outcome
    ensures pb.grantedPermissions ==
      NormalResult(old(pb.State()), Zip(permissions, grantResults), env).session.grantedPermissions
    ensures pb.deniedPermissions ==
      NormalResult(old(pb.State()), Zip(permissions, grantResults), env).session.deniedPermissions
    ensures pb.permanentDeniedPermissions ==
      NormalResult(old(pb.State()), Zip(permissions, grantResults), env).session.permanentDeniedPermissions
    ensures pb.tempPermanentDeniedPermissions ==
      NormalResult(old(pb.State()), Zip(permissions, grantResults), env).session.tempPermanentDeniedPermissions
  {
    var s := pb.State();
    var recorded := RecordArrays(Opening(s), permissions, grantResults, env);
    var deniedPermissions := recorded.denied + recorded.permanentDenied;
    var r := RecheckDenied(recorded, deniedPermissions, env);
    assert r == Settled(s, Zip(permissions, grantResults), env);
    pb.grantedPermissions := r.granted;
    pb.deniedPermissions := r.denied;
    pb.permanentDeniedPermissions := r.permanentDenied;
    if |r.granted| == |s.normalPermissions| {
      o := FinishNow;
    } else if s.callbacks.CanExplain() && r.showReasonList != [] {
      o := Explain(r.denied, s.callbacks.ExplainVia(false), r.forwardList);
    } else if s.callbacks.forwardToSettings && (r.forwardList != [] || s.tempPermanentDeniedPermissions != []) {
      pb.tempPermanentDeniedPermissions := [];
      o := Forward(r.permanentDenied);
    } else {
      o := Unhandled;
    }
  }

  /**
   * The fragment: the builder and the task of the request in flight, both
   * unset until the first launch.
   */
  class InvisibleFragment {
    var pb: PermissionBuilder?
    var task: Task?

    constructor ()
      ensures pb == null && task == null
    {
      pb := null;
      task := null;
    }

    /** The builder and the task are still attached; the handlers do nothing otherwise. */
    predicate CheckForGC()
      reads this
    {
      pb != null && task != null
    }

    /** Attaches the builder and the task and asks the platform for the given names. */
    method RequestNow(permissionBuilder: PermissionBuilder, permissions: set<string>, chainTask: Task)
      returns (l: Launch)
      modifies this
      ensures pb == permissionBuilder && task == chainTask && CheckForGC()
      ensures l == RuntimeDialog(permissions)
    {
      pb := permissionBuilder;
      task := chainTask;
      l := RuntimeDialog(permissions);
    }

    /** Attaches and asks for one runtime permission alone (the two background permissions). */
    method RequestSingleNow(permissionBuilder: PermissionBuilder, permission: string, chainTask: Task)
      returns (l: Launch)
      modifies this
      ensures pb == permissionBuilder && task == chainTask && CheckForGC()
      ensures l == RuntimeDialog({permission})
    {
      pb := permissionBuilder;
      task := chainTask;
      l := RuntimeDialog({permission});
    }

    /** Attaches and opens a special settings screen, or runs its result handler at once. */
    method RequestScreenNow(permissionBuilder: PermissionBuilder, kind: TaskKind, chainTask: Task, env: Platform)
      returns (l: Launch)
      requires IsSettingsScreenKind(kind)
      modifies this
      ensures pb == permissionBuilder && task == chainTask && CheckForGC()
      ensures l == ScreenNow(kind, permissionBuilder.State(), env)
    {
      pb := permissionBuilder;
      task := chainTask;
      l := ScreenNow(kind, permissionBuilder.State(), env);
    }

    /** The normal-permission result, up to the callback; nothing happens when detached. */
    method OnRequestNormalPermissionsResult(results: seq<GrantResult>, env: Platform) returns (o: Option<Outcome>)
      modifies pb
      ensures !CheckForGC() ==> o == None && (pb != null ==> pb.State() == old(pb.State()))
      ensures CheckForGC() ==>
        o == Some(NormalResult(old(pb.State()), results, env).outcome) &&
        pb.State() == NormalResult(old(pb.State()), results, env).session
    {
      if !CheckForGC() {
        return None;
      }
      var outcome := ApplyNormalResult(pb, results, env);
      o := Some(outcome);
    }

    /**
     * Back from the callback of a normal round: parks the permanent refusals
     * after an explain callback and says whether the task finishes.
     */
    method ResumeNormalRound(o: Outcome) returns (finish: bool)
      requires CheckForGC()
      modifies pb`tempPermanentDeniedPermissions
      ensures pb.State() == Parked(old(pb.State()), o)
      ensures finish == FinishesAfterCallback(o, pb.showDialogCalled)
    {
      if o.Explain? {
        pb.tempPermanentDeniedPermissions := AddAll(pb.tempPermanentDeniedPermissions, o.parked);
      }
      finish := o.FinishNow? || o.Unhandled? || !pb.showDialogCalled;
    }

    /** After the finish decision of a normal round that did not grant everything. */
    method EndNormalRound(o: Outcome)
      requires CheckForGC()
      modifies pb`showDialogCalled
      ensures pb.State() == EndOfRound(old(pb.State()), o)
    {
      if !o.FinishNow? {
        pb.showDialogCalled := false;
      }
    }

    /** The result of a runtime permission asked for alone, up to the callback. */
    method OnRequestSingleResult(name: string, granted: bool, env: Platform) returns (o: Option<Outcome>)
      modifies pb
      ensures !CheckForGC() ==> o == None && (pb != null ==> pb.State() == old(pb.State()))
      ensures CheckForGC() ==>
        o == Some(SingleResult(old(pb.State()), name, granted, env).outcome) &&
        pb.State() == SingleResult(old(pb.State()), name, granted, env).session
    {
      if !CheckForGC() {
        return None;
      }
      if granted {
        pb.grantedPermissions := Add(pb.grantedPermissions, name);
        pb.deniedPermissions := Remove(pb.deniedPermissions, name);
        pb.permanentDeniedPermissions := Remove(pb.permanentDeniedPermissions, name);
        return Some(FinishNow);
      }
      var shouldShowRationale := env.ShouldShowRequestPermissionRationale(name);
      if pb.callbacks.CanExplain() && shouldShowRationale {
        o := Some(Explain([name], pb.callbacks.ExplainVia(false), []));
      } else if pb.callbacks.forwardToSettings && !shouldShowRationale {
        o := Some(Forward([name]));
      } else {
        o := Some(Unhandled);
      }
    }

    /** Back from the callback of a single-permission result: whether the task finishes. */
    method ResumeSingleResult(o: Outcome) returns (finish: bool)
      requires CheckForGC()
      ensures finish == FinishesAfterCallback(o, pb.showDialogCalled)
    {
      finish := o.FinishNow? || o.Unhandled? || !pb.showDialogCalled;
    }

    /** Return from a special settings screen; nothing happens when detached. */
    method OnRequestScreenResult(kind: TaskKind, env: Platform) returns (a: Action)
      requires IsSettingsScreenKind(kind)
      ensures !CheckForGC() ==> a == Nothing
      ensures CheckForGC() ==> a == ScreenResult(kind, pb.State(), env)
    {
      if !CheckForGC() {
        return Nothing;
      }
      a := ScreenResult(kind, pb.State(), env);
    }

    /** Return from the app's settings page: the task asks again for the forwarded names. */
    method OnSettingsResult() returns (a: Action)
      ensures !CheckForGC() ==> a == Nothing
      ensures CheckForGC() ==> a == TaskRequestAgain(pb.forwardPermissions)
    {
      if !CheckForGC() {
        return Nothing;
      }
      a := TaskRequestAgain(pb.forwardPermissions);
    }

    /** On destruction a kept dialog that is showing is dismissed. */
    method OnDestroy(isShowing: bool) returns (dismiss: bool)
      ensures dismiss <==> CheckForGC() && pb.currentDialog && isShowing
    {
      dismiss := false;
      if CheckForGC() {
        if pb.currentDialog && isShowing {
          dismiss := true;
        }
      }
    }

    /** The Java launcher of the overlay screen. */
    method RequestSystemAlertWindowPermissionNowJava(permissionBuilder: PermissionBuilder, chainTask: Task, env: Platform)
      returns (l: Launch)
      modifies this
      ensures pb == permissionBuilder && task == chainTask && CheckForGC()
      ensures l == ScreenNowJava(permissionBuilder.State(), env)
    {
      pb := permissionBuilder;
      task := chainTask;
      l := ScreenNowJava(permissionBuilder.State(), env);
    }

    /**
     * The Java runtime-permission result, dispatched on the request code:
     * the normal round on the parallel arrays, or background location decided
     * by a live check rather than by the reported result.  An unknown code,
     * or a detached fragment, does nothing.
     */
    method OnRequestPermissionsResultJava(requestCode: int, permissions: seq<string>, grantResults: seq<int>,
                                          env: Platform) returns (o: Option<Outcome>)
      requires |permissions| <= |grantResults|
      modifies pb
      ensures CheckForGC() && requestCode == REQUEST_NORMAL_PERMISSIONS ==>
        o == Some(NormalResult(old(pb.State()), Zip(permissions, grantResults), env).outcome) &&
        pb.State() == NormalResult(old(pb.State()), Zip(permissions, grantResults), env).session
      ensures CheckForGC() && requestCode == REQUEST_BACKGROUND_LOCATION_PERMISSION ==>
        var h := SingleResult(old(pb.State()), ACCESS_BACKGROUND_LOCATION, env.IsGranted(ACCESS_BACKGROUND_LOCATION), env);
        o == Some(h.outcome) && pb.State() == h.session
      ensures !CheckForGC() || requestCode !in {REQUEST_NORMAL_PERMISSIONS, REQUEST_BACKGROUND_LOCATION_PERMISSION} ==>
        o == None && (pb != null ==> pb.State() == old(pb.State()))
    {
      if requestCode == REQUEST_NORMAL_PERMISSIONS {
        if !CheckForGC() {
          return None;
        }
        var outcome := ApplyNormalResultJava(pb, permissions, grantResults, env);
        o := Some(outcome);
      } else if requestCode == REQUEST_BACKGROUND_LOCATION_PERMISSION {
        o := OnRequestSingleResult(ACCESS_BACKGROUND_LOCATION, env.IsGranted(ACCESS_BACKGROUND_LOCATION), env);
      } else {
        o := None;
      }
    }

    /**
     * The Java activity result: back from the app's settings page the task
     * asks again for the forwarded names; back from the overlay screen its
     * return handler runs.  Detached, or on another code, nothing happens.
     */
    method OnActivityResultJava(requestCode: int, env: Platform) returns (a: Action)
      ensures CheckForGC() && requestCode == FORWARD_TO_SETTINGS ==> a == TaskRequestAgain(pb.forwardPermissions)
      ensures CheckForGC() && requestCode == ACTION_MANAGE_OVERLAY_PERMISSION ==>
        a == ScreenResult(SystemAlertWindow, pb.State(), env)
      ensures !CheckForGC() || requestCode !in {FORWARD_TO_SETTINGS, ACTION_MANAGE_OVERLAY_PERMISSION} ==> a == Nothing
    {
      a := Nothing;
      if CheckForGC() {
        if requestCode == FORWARD_TO_SETTINGS {
          a := TaskRequestAgain(pb.forwardPermissions);
        } else if requestCode == ACTION_MANAGE_OVERLAY_PERMISSION {
          a := ScreenResult(SystemAlertWindow, pb.State(), env);
        }
      }
    }
  }
}
