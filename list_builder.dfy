/**
 * The chain-less builder of the `library/` Java generation and of the
 * `kotlin/` generation.  It keeps one list of requested names and the
 * granted, denied and permanently denied sets; every platform round covers
 * the whole list, and a dialog's negative button or an empty dialog list
 * delivers the result to the user at once (there is no task to finish).
 *
 * The two generations differ in three places: asking again concatenates
 * the granted names and the given ones as a list in Java and unites them as
 * a set in Kotlin; the dialog is cancelable when the negative text is
 * non-empty in Java and when it is null or blank in Kotlin; and the Kotlin
 * dialog shows a negative button for any non-null text, the Java one only
 * for a non-empty text.
 */
module ListBuilder {
  import opened Android
  import opened Steps
  import opened OrderedSet
  import opened Builder
  import Task = RequestNormalPermissions

  /** The requested names not granted yet, in list order. */
  function RequestList(s: Session, env: Platform): (l: seq<string>)
    ensures forall p :: p in l <==> p in s.allPermissions && !env.IsGranted(p)
    ensures l == [] <==> forall p :: p in s.allPermissions ==> env.IsGranted(p)
  {
    var l := Without(s.allPermissions, env.granted);
    assert l != [] ==> l[0] in l;
    l
  }

  /** The granted set after the scan: the requested names already held join it. */
  function ScannedGranted(s: Session, env: Platform): (g: seq<string>)
    ensures forall p :: p in g <==> p in s.grantedPermissions || (p in s.allPermissions && env.IsGranted(p))
    ensures NoDup(s.grantedPermissions) ==> NoDup(g)
  {
    AddAll(s.grantedPermissions, Filter(s.allPermissions, env.granted))
  }

  /**
   * `request`, once the callback is stored.  When every requested name is
   * held the callback gets `(true, allPermissions, [])` at once.  Otherwise,
   * when explaining first was asked for and an explain callback is
   * registered, the flag is cleared, the names still missing join the
   * denied set and are explained (with `beforeRequest` true).  Otherwise
   * the platform is asked for the whole list, held names included.
   */
  function RequestSpec(s: Session, env: Platform): (r: Step)
    ensures Wf(s) ==> Wf(r.session)
    ensures r.session.grantedPermissions == ScannedGranted(s, env)
    ensures r.action.DeliverResult? <==> forall p :: p in s.allPermissions ==> env.IsGranted(p)
    ensures r.action.DeliverResult? ==> r.action.result == RequestResult(true, s.allPermissions, [])
    ensures r.action.CallExplainReason? <==>
      RequestList(s, env) != [] && s.explainReasonBeforeRequest && s.callbacks.CanExplain()
    ensures r.action.CallExplainReason? ==>
      r.action == CallExplainReason(RequestList(s, env), s.callbacks.ExplainVia(true)) &&
      r.session == s.(grantedPermissions := ScannedGranted(s, env), explainReasonBeforeRequest := false,
                      deniedPermissions := AddAll(s.deniedPermissions, RequestList(s, env)))
    ensures !r.action.CallExplainReason? ==> r.session == s.(grantedPermissions := ScannedGranted(s, env))
    ensures r.action.LaunchPermissionRequestList? <==> !r.action.DeliverResult? && !r.action.CallExplainReason?
    ensures r.action.LaunchPermissionRequestList? ==> r.action.permissions == s.allPermissions
  {
    var scanned := s.(grantedPermissions := ScannedGranted(s, env));
    var requestList := RequestList(s, env);
    if requestList == [] then Step(scanned, DeliverResult(RequestResult(true, s.allPermissions, [])))
    else if s.explainReasonBeforeRequest && s.callbacks.CanExplain() then
      Step(scanned.(explainReasonBeforeRequest := false,
                    deniedPermissions := AddAll(s.deniedPermissions, requestList)),
           CallExplainReason(requestList, s.callbacks.ExplainVia(true)))
    else Step(scanned, LaunchPermissionRequestList(s.allPermissions))
  }

  /**
   * The list builder's `request` is the Java normal-permission task run on
   * the whole list: the same new sets and the same explain step, with the
   * result delivered where the task would finish and the platform asked for
   * the same names where the task would ask.
   */
  lemma AgreesWithNormalTask(s: Session, env: Platform)
    ensures var t := s.(normalPermissions := s.allPermissions);
      var task := Task.RequestSpecJava(t, env);
      var list := RequestSpec(s, env);
      list.session == task.session.(normalPermissions := s.normalPermissions) &&
      (list.action.DeliverResult? <==> task.action == TaskFinish) &&
      (list.action.CallExplainReason? ==> list.action == task.action) &&
      (list.action.LaunchPermissionRequestList? ==>
        task.action == LaunchPermissionRequest(Elems(list.action.permissions)))
  {
    var t := s.(normalPermissions := s.allPermissions);
    assert Task.RequestList(t, env) == RequestList(s, env);
    assert Task.Scanned(t, env) == t.(grantedPermissions := ScannedGranted(s, env));
  }

  /** The scan loop: held names join the granted set, the others form the request list. */
  method Scan(pb: PermissionBuilder, env: Platform) returns (requestList: seq<string>)
    modifies pb`grantedPermissions
    ensures pb.grantedPermissions == ScannedGranted(old(pb.State()), env)
    ensures requestList == RequestList(old(pb.State()), env)
  {
    var all := pb.allPermissions;
    var granted0 := pb.grantedPermissions;
    var granted := granted0;
    requestList := [];
    for i := 0 to |all|
      invariant requestList == Without(all[..i], env.granted)
      invariant granted == AddAll(granted0, Filter(all[..i], env.granted))
    {
      var permission := all[i];
      ghost var done := all[..i];
      assert all[..i + 1] == done + [permission];
      FilterSnoc(done, permission, env.granted);
      WithoutSnoc(done, permission, env.granted);
      if env.IsGranted(permission) {
        AddAllSnoc(granted0, Filter(done, env.granted), permission);
        granted := Add(granted, permission);
      } else {
        requestList := requestList + [permission];
      }
    }
    assert all[..|all|] == all;
    pb.grantedPermissions := granted;
  }

  /** `request(callback)`: stores the (non-null) callback and takes the first step. */
  method Request(pb: PermissionBuilder, env: Platform) returns (a: Action)
    modifies pb`grantedPermissions, pb`deniedPermissions, pb`explainReasonBeforeRequest, pb`callbacks
    ensures pb.callbacks == old(pb.callbacks).(request := true)
    ensures a == RequestSpec(old(pb.State()), env).action
    ensures pb.grantedPermissions == RequestSpec(old(pb.State()), env).session.grantedPermissions
    ensures pb.deniedPermissions == RequestSpec(old(pb.State()), env).session.deniedPermissions
    ensures pb.explainReasonBeforeRequest == RequestSpec(old(pb.State()), env).session.explainReasonBeforeRequest
  {
    // Storing the callback touches no field the scan reads, so it may come second.
    var all, callbacks := pb.allPermissions, pb.callbacks;
    var requestList := Scan(pb, env);
    pb.callbacks := callbacks.(request := true);
    if requestList == [] {
      return DeliverResult(RequestResult(true, all, []));
    }
    if pb.explainReasonBeforeRequest && callbacks.CanExplain() {
      pb.explainReasonBeforeRequest := false;
      pb.deniedPermissions := AddAll(pb.deniedPermissions, requestList);
      a := CallExplainReason(requestList, callbacks.ExplainVia(true));
    } else {
      a := LaunchPermissionRequestList(all);
    }
  }

  /**
   * Java `requestAgain`: an empty list cancels; otherwise, once a result
   * callback is stored, the platform is asked for the granted names followed
   * by the given ones, as one list that keeps every repetition.
   */
  function RequestAgain(s: Session, permissions: seq<string>): (a: Action)
    ensures a == BuilderDialogCancel <==> permissions == []
    ensures a == Nothing <==> permissions != [] && !s.callbacks.request
    ensures a.BuilderDialogCancel? || a.Nothing? || a.LaunchPermissionRequestList?
    ensures a.LaunchPermissionRequestList? ==>
      (forall p :: p in a.permissions <==> p in s.grantedPermissions || p in permissions) &&
      |a.permissions| == |s.grantedPermissions| + |permissions| &&
      a.permissions[|s.grantedPermissions|..] == permissions
  {
    if permissions == [] then BuilderDialogCancel
    else if s.callbacks.request then LaunchPermissionRequestList(s.grantedPermissions + permissions)
    else Nothing
  }

  /**
   * Kotlin `requestAgain`: the same, except that the granted names and the
   * given ones are united as a set.
   */
  function RequestAgainKotlin(s: Session, permissions: seq<string>): (a: Action)
    ensures a == BuilderDialogCancel <==> permissions == []
    ensures a == Nothing <==> permissions != [] && !s.callbacks.request
    ensures a.BuilderDialogCancel? || a.Nothing? || a.LaunchPermissionRequestList?
    ensures a.LaunchPermissionRequestList? ==>
      (forall p :: p in a.permissions <==> p in s.grantedPermissions || p in permissions) &&
      (NoDup(s.grantedPermissions) ==> NoDup(a.permissions))
  {
    if permissions == [] then BuilderDialogCancel
    else if s.callbacks.request then LaunchPermissionRequestList(AddAll(s.grantedPermissions, permissions))
    else Nothing
  }

  /**
   * The two generations ask for the same names again; the Java list repeats
   * any given name that is granted already, the Kotlin one never repeats.
   */
  lemma RequestAgainRepeatsGrantedNames(s: Session, permissions: seq<string>, p: string)
    requires Wf(s) && permissions != [] && s.callbacks.request
    ensures Elems(RequestAgain(s, permissions).permissions) == Elems(RequestAgainKotlin(s, permissions).permissions)
    ensures NoDup(RequestAgainKotlin(s, permissions).permissions)
    ensures p in s.grantedPermissions && p in permissions ==> !NoDup(RequestAgain(s, permissions).permissions)
  {
    var list := s.grantedPermissions + permissions;
    if p in s.grantedPermissions && p in permissions {
      var i :| 0 <= i < |s.grantedPermissions| && s.grantedPermissions[i] == p;
      var j :| 0 <= j < |permissions| && permissions[j] == p;
      assert list[i] == list[|s.grantedPermissions| + j];
    }
  }

  /** The dialog the builder shows, or the cancel that runs in its place. */
  datatype ListDialog =
    | CancelWithoutDialog                                                  // onPermissionDialogCancel runs at once
    | ListDialogShown(cancelable: bool, positive: Action, negative: Option<Action>)

  /** `TextUtils.isEmpty`: null or the empty string. */
  predicate IsEmptyText(text: Option<string>) {
    text.None? || text.value == []
  }

  /** Characters counted as blank: ASCII space, tab, line feed and carriage return. */
  predicate IsBlankChar(c: char) {
    c == ' ' || c == '\t' || c == '\n' || c == '\r'
  }

  /** Kotlin's `isNullOrBlank`: null, or nothing but blank characters. */
  predicate IsNullOrBlank(text: Option<string>) {
    text.None? || forall i :: 0 <= i < |text.value| ==> IsBlankChar(text.value[i])
  }

  /**
   * The names a dialog is about, reduced (in their order) to those not
   * granted yet and part of this request.
   */
  function DialogFilter(s: Session, permissions: seq<string>): (f: seq<string>)
    ensures forall p :: p in f <==> p in permissions && p !in s.grantedPermissions && p in s.allPermissions
    ensures |f| <= |permissions|
    ensures NoDup(permissions) ==> NoDup(f)
  {
    Filter(permissions, Elems(s.allPermissions) - Elems(s.grantedPermissions))
  }

  /** The filter keeps order: one more name at the end adds that name at the end, or nothing. */
  lemma DialogFilterKeepsOrder(s: Session, permissions: seq<string>, q: string)
    ensures q !in s.grantedPermissions && q in s.allPermissions ==>
      DialogFilter(s, permissions + [q]) == DialogFilter(s, permissions) + [q]
    ensures q in s.grantedPermissions || q !in s.allPermissions ==>
      DialogFilter(s, permissions + [q]) == DialogFilter(s, permissions)
  {
    FilterSnoc(permissions, q, Elems(s.allPermissions) - Elems(s.grantedPermissions));
  }

  /** The positive button: ask again in explain mode, open the settings in forward mode. */
  function PositiveAction(showReasonOrGoSettings: bool, filtered: seq<string>): (a: Action)
    ensures showReasonOrGoSettings ==> a == BuilderRequestAgain(filtered)
    ensures !showReasonOrGoSettings ==> a == BuilderForwardToSettings(filtered)
  {
    if showReasonOrGoSettings then BuilderRequestAgain(filtered) else BuilderForwardToSettings(filtered)
  }

  /**
   * The Java dialog on the filtered names: none (and a cancel) when nothing
   * is left; otherwise cancelable, and with a cancelling negative button,
   * exactly when the negative text is non-empty.
   */
  function DialogJava(showReasonOrGoSettings: bool, filtered: seq<string>, negativeText: Option<string>): (d: ListDialog)
    ensures d == CancelWithoutDialog <==> filtered == []
    ensures d.ListDialogShown? ==>
      d.positive == PositiveAction(showReasonOrGoSettings, filtered) &&
      (d.cancelable <==> !IsEmptyText(negativeText)) &&
      (d.negative.Some? <==> !IsEmptyText(negativeText)) &&
      (d.negative.Some? ==> d.negative.value == BuilderDialogCancel)
  {
    if filtered == [] then CancelWithoutDialog
    else ListDialogShown(!IsEmptyText(negativeText), PositiveAction(showReasonOrGoSettings, filtered),
                         if IsEmptyText(negativeText) then None else Some(BuilderDialogCancel))
  }

  /**
   * The Kotlin dialog: cancelable exactly when the negative text is null or
   * blank, and with a cancelling negative button whenever the text is
   * non-null.
   */
  function DialogKotlin(showReasonOrGoSettings: bool, filtered: seq<string>, negativeText: Option<string>): (d: ListDialog)
    ensures d == CancelWithoutDialog <==> filtered == []
    ensures d.ListDialogShown? ==>
      d.positive == PositiveAction(showReasonOrGoSettings, filtered) &&
      (d.cancelable <==> IsNullOrBlank(negativeText)) &&
      (d.negative.Some? <==> negativeText.Some?) &&
      (d.negative.Some? ==> d.negative.value == BuilderDialogCancel)
  {
    if filtered == [] then CancelWithoutDialog
    else ListDialogShown(IsNullOrBlank(negativeText), PositiveAction(showReasonOrGoSettings, filtered),
                         if negativeText.None? then None else Some(BuilderDialogCancel))
  }

  /**
   * The generations disagree on cancelability: without a negative text the
   * Java dialog cannot be cancelled and the Kotlin one can; with a text that
   * is not blank it is the other way round.  Only a non-empty blank text
   * makes both cancelable.
   */
  lemma CancelableRulesDisagree(showReasonOrGoSettings: bool, filtered: seq<string>, negativeText: Option<string>)
    requires filtered != []
    ensures negativeText.None? || !IsNullOrBlank(negativeText) ==>
      DialogJava(showReasonOrGoSettings, filtered, negativeText).cancelable !=
      DialogKotlin(showReasonOrGoSettings, filtered, negativeText).cancelable
    ensures negativeText.Some? && negativeText.value != [] && IsNullOrBlank(negativeText) ==>
      DialogJava(showReasonOrGoSettings, filtered, negativeText).cancelable &&
      DialogKotlin(showReasonOrGoSettings, filtered, negativeText).cancelable
  {
    if negativeText.Some? && !IsNullOrBlank(negativeText) {
      var i :| 0 <= i < |negativeText.value| && !IsBlankChar(negativeText.value[i]);
    }
  }

  /** The Java filter loop. */
  method FilterLoop(pb: PermissionBuilder, permissions: seq<string>) returns (filtered: seq<string>)
    ensures filtered == DialogFilter(pb.State(), permissions)
  {
    ghost var keep := Elems(pb.allPermissions) - Elems(pb.grantedPermissions);
    filtered := [];
    for i := 0 to |permissions|
      invariant filtered == Filter(permissions[..i], keep)
    {
      var permission := permissions[i];
      assert permissions[..i + 1] == permissions[..i] + [permission];
      FilterSnoc(permissions[..i], permission, keep);
      if permission !in pb.grantedPermissions && permission in pb.allPermissions {
        filtered := filtered + [permission];
      }
    }
    assert permissions[..|permissions|] == permissions;
  }

  /**
   * Java `showHandlePermissionDialog`: records that a dialog was asked for,
   * then shows the dialog on the filtered names, or cancels when none is
   * left.
   */
  method ShowHandlePermissionDialog(pb: PermissionBuilder, showReasonOrGoSettings: bool,
                                    permissions: seq<string>, negativeText: Option<string>)
    returns (d: ListDialog)
    modifies pb`showDialogCalled
    ensures pb.showDialogCalled
    ensures d == DialogJava(showReasonOrGoSettings, DialogFilter(old(pb.State()), permissions), negativeText)
  {
    pb.showDialogCalled := true;
    var filtered := FilterLoop(pb, permissions);
    if filtered == [] {
      return CancelWithoutDialog;
    }
    d := ListDialogShown(!IsEmptyText(negativeText), PositiveAction(showReasonOrGoSettings, filtered),
                         if IsEmptyText(negativeText) then None else Some(BuilderDialogCancel));
  }

  /** Kotlin `showHandlePermissionDialog`: the same with the Kotlin dialog rules. */
  method ShowHandlePermissionDialogKotlin(pb: PermissionBuilder, showReasonOrGoSettings: bool,
                                          permissions: seq<string>, negativeText: Option<string>)
    returns (d: ListDialog)
    modifies pb`showDialogCalled
    ensures pb.showDialogCalled
    ensures d == DialogKotlin(showReasonOrGoSettings, DialogFilter(old(pb.State()), permissions), negativeText)
  {
    pb.showDialogCalled := true;
    var filtered := DialogFilter(pb.State(), permissions);
    if filtered == [] {
      return CancelWithoutDialog;
    }
    d := ListDialogShown(IsNullOrBlank(negativeText), PositiveAction(showReasonOrGoSettings, filtered),
                         if negativeText.None? then None else Some(BuilderDialogCancel));
  }

  /**
   * `forwardToSettings`: the names are appended to those already forwarded
   * (nothing is cleared) and the settings page opens.
   */
  method ForwardToSettings(pb: PermissionBuilder, permissions: seq<string>) returns (a: Action)
    modifies pb`forwardPermissions
    ensures pb.forwardPermissions == old(pb.forwardPermissions) + permissions
    ensures a == LaunchSettings
  {
    pb.forwardPermissions := pb.forwardPermissions + permissions;
    a := LaunchSettings;
  }

  /**
   * `onPermissionDialogCancel`: when a result callback is stored it gets the
   * granted set and the denied names followed by the permanently denied
   * ones, reported as all granted exactly when that list is empty.
   */
  function OnPermissionDialogCancel(s: Session): (a: Action)
    ensures a == Nothing <==> !s.callbacks.request
    ensures a.Nothing? || a.DeliverResult?
    ensures a.DeliverResult? ==>
      a.result.grantedList == s.grantedPermissions &&
      (forall p :: p in a.result.deniedList <==> p in s.deniedPermissions || p in s.permanentDeniedPermissions) &&
      |a.result.deniedList| == |s.deniedPermissions| + |s.permanentDeniedPermissions| &&
      (a.result.allGranted <==> s.deniedPermissions == [] && s.permanentDeniedPermissions == [])
  {
    var deniedList := s.deniedPermissions + s.permanentDeniedPermissions;
    if s.callbacks.request then DeliverResult(RequestResult(deniedList == [], s.grantedPermissions, deniedList))
    else Nothing
  }
}

/**
 * The invisible fragment of the chain-less builders: the Java one of the
 * `library/` generation, which reads the callbacks from its builder, and
 * the Kotlin one that goes with the `kotlin/` builder, which keeps its own
 * copies of the callbacks handed to `requestNow`.
 *
 * A round records the reported results in the builder's sets; the granted
 * set becomes exactly this round's grants (nothing is re-checked).  The
 * explain callback gets this round's refusals with a rationale and the
 * forward callback this round's refusals without one.
 */
module ListFragment {
  import opened Android
  import opened Steps
  import opened OrderedSet
  import opened Builder
  import opened InvisibleFragment
  import ListBuilder
  import Cards = ChainedLibrary

  const PERMISSION_CODE: int := 1
  const SETTINGS_CODE: int := 2

  /** The results as the handler reads them: the first `grantResults.length` names with their codes. */
  function ReportedResults(permissions: seq<string>, grantResults: seq<int>): (results: seq<GrantResult>)
    requires |grantResults| <= |permissions|
    ensures |results| == |grantResults|
    ensures forall i :: 0 <= i < |grantResults| ==>
      results[i] == (permissions[i], grantResults[i] == PERMISSION_GRANTED)
  {
    Zip(permissions[..|grantResults|], grantResults)
  }

  /** A round starts from an empty granted set and the builder's refusal sets. */
  function ListRound(s: Session, results: seq<GrantResult>, env: Platform): Round {
    Recorded(Opening(s), results, env)
  }

  /**
   * The decision after a round.  All granted when the granted set is as
   * large as the requested list.  Otherwise the explain callback runs when
   * one is registered and this round refused something with a rationale;
   * else the forward callback runs when registered and this round refused
   * something without one.
   */
  function DecideList(s: Session, r: Round): (o: Outcome)
    ensures o.FinishNow? <==> |r.granted| == |s.allPermissions|
    ensures o.Explain? <==> !o.FinishNow? && s.callbacks.CanExplain() && r.showReasonList != []
    ensures o.Explain? ==> o == Explain(r.showReasonList, s.callbacks.ExplainVia(false), [])
    ensures o.Forward? <==>
      !o.FinishNow? && !o.Explain? && s.callbacks.forwardToSettings && r.forwardList != []
    ensures o.Forward? ==> o.permissions == r.forwardList
  {
    if |r.granted| == |s.allPermissions| then FinishNow
    else if s.callbacks.CanExplain() && r.showReasonList != [] then
      Explain(r.showReasonList, s.callbacks.ExplainVia(false), [])
    else if s.callbacks.forwardToSettings && r.forwardList != [] then Forward(r.forwardList)
    else Unhandled
  }

  /** The builder's sets after the round, and the decision. */
  function ListResult(s: Session, results: seq<GrantResult>, env: Platform): Handled {
    var r := ListRound(s, results, env);
    Handled(s.(grantedPermissions := r.granted, deniedPermissions := r.denied,
               permanentDeniedPermissions := r.permanentDenied),
            DecideList(s, r))
  }

  /**
   * What reaches the result callback, given the builder once the user's
   * callback (if any) has returned: all granted reports the requested list;
   * otherwise the result goes out when no callback applied or no dialog was
   * asked for, with the granted set and the denied names followed by the
   * permanently denied ones.  The dialog flag is never reset.
   */
  function Delivery(t: Session, o: Outcome): (a: Action)
    ensures a == Nothing <==> !t.callbacks.request || ((o.Explain? || o.Forward?) && t.showDialogCalled)
    ensures a.Nothing? || a.DeliverResult?
    ensures o.FinishNow? && a.DeliverResult? ==> a.result == RequestResult(true, t.allPermissions, [])
    ensures !o.FinishNow? && a.DeliverResult? ==>
      a.result == RequestResult(false, t.grantedPermissions, t.deniedPermissions + t.permanentDeniedPermissions)
  {
    if !t.callbacks.request then Nothing
    else if o.FinishNow? then DeliverResult(RequestResult(true, t.allPermissions, []))
    else if o.Unhandled? || !t.showDialogCalled then
      DeliverResult(RequestResult(false, t.grantedPermissions, t.deniedPermissions + t.permanentDeniedPermissions))
    else Nothing
  }

  /**
   * Where the round leaves a name: granted exactly when some entry grants
   * it; a name last reported granted is in neither refusal set; a refusal
   * with a rationale is denied, one without is permanently denied and not
   * denied; a name without an entry keeps its refusal sets.
   */
  lemma ListResultSets(s: Session, results: seq<GrantResult>, env: Platform, p: string)
    ensures var t := ListResult(s, results, env).session;
      (p in t.grantedPermissions <==> (p, true) in results) &&
      (ResultFor(results, p) == Some(true) ==>
        p !in t.deniedPermissions && p !in t.permanentDeniedPermissions) &&
      (ResultFor(results, p) == Some(false) && env.ShouldShowRequestPermissionRationale(p) ==>
        p in t.deniedPermissions) &&
      (ResultFor(results, p) == Some(false) && !env.ShouldShowRequestPermissionRationale(p) ==>
        p in t.permanentDeniedPermissions && p !in t.deniedPermissions) &&
      (ResultFor(results, p) == None ==>
        (p in t.deniedPermissions <==> p in s.deniedPermissions) &&
        (p in t.permanentDeniedPermissions <==> p in s.permanentDeniedPermissions))
  {
    RecordedGranted(Opening(s), results, env, p);
    RecordedSides(Opening(s), results, env, p);
  }

  /**
   * With one entry per name, a granted name is in neither refusal set after
   * the round.  (The current engine's live re-check can leave a name both
   * granted and permanently denied; this generation cannot.)
   */
  lemma GrantedNeverRefused(s: Session, results: seq<GrantResult>, env: Platform, p: string)
    requires DistinctKeys(results)
    ensures var t := ListResult(s, results, env).session;
      p in t.grantedPermissions ==> p !in t.deniedPermissions && p !in t.permanentDeniedPermissions
  {
    ListResultSets(s, results, env, p);
    ResultForEntry(results, p, true);
  }

  /**
   * With a duplicate-free request list and one entry per name, all taken
   * from the list, the round counts as all granted exactly when every
   * requested name is reported granted.
   */
  lemma AllGrantedIffEveryNameGranted(s: Session, results: seq<GrantResult>, env: Platform)
    requires Wf(s) && NoDup(s.allPermissions) && DistinctKeys(results)
    requires forall i :: 0 <= i < |results| ==> results[i].0 in s.allPermissions
    ensures ListResult(s, results, env).outcome == FinishNow <==>
      forall p :: p in s.allPermissions ==> ResultFor(results, p) == Some(true)
  {
    var r := ListRound(s, results, env);
    assert ListResult(s, results, env).outcome == DecideList(s, r);
    RoundGrantCount(s, results, env);
  }

  lemma RoundGrantCount(s: Session, results: seq<GrantResult>, env: Platform)
    requires Wf(s) && NoDup(s.allPermissions) && DistinctKeys(results)
    requires forall i :: 0 <= i < |results| ==> results[i].0 in s.allPermissions
    ensures |ListRound(s, results, env).granted| == |s.allPermissions| <==>
      forall p :: p in s.allPermissions ==> ResultFor(results, p) == Some(true)
  {
    var g := ListRound(s, results, env).granted;
    RecordedNoDup(Opening(s), results, env);
    forall p
      ensures p in g <==> p in s.allPermissions && ResultFor(results, p) == Some(true)
    {
      RoundGrantMember(s, results, env, p);
    }
    NoDupCard(g);
    NoDupCard(s.allPermissions);
    if forall p :: p in s.allPermissions ==> ResultFor(results, p) == Some(true) {
      assert Elems(g) == Elems(s.allPermissions);
    } else {
      var q :| q in s.allPermissions && ResultFor(results, q) != Some(true);
      Cards.SmallerWhenOneMissing(Elems(g), Elems(s.allPermissions), q);
    }
  }

  lemma RoundGrantMember(s: Session, results: seq<GrantResult>, env: Platform, p: string)
    requires DistinctKeys(results)
    requires forall i :: 0 <= i < |results| ==> results[i].0 in s.allPermissions
    ensures p in ListRound(s, results, env).granted <==> p in s.allPermissions && ResultFor(results, p) == Some(true)
  {
    RecordedGranted(Opening(s), results, env, p);
    ResultForEntry(results, p, true);
  }

  /**
   * A name requested twice (the list comes straight from the caller's
   * arguments) can never count as all granted: here the only name is
   * granted, yet the callback is told that not everything was.
   */
  lemma RepeatedNameNeverAllGranted()
    ensures var s := Initial([], {}, [ACCESS_FINE_LOCATION, ACCESS_FINE_LOCATION]).(callbacks := Callbacks(false, false, false, true));
      var env := Platform(Q, Q, {ACCESS_FINE_LOCATION}, {}, false, false, false, false, false);
      var h := ListResult(s, [(ACCESS_FINE_LOCATION, true)], env);
      h.outcome == Unhandled &&
      Delivery(h.session, h.outcome) == DeliverResult(RequestResult(false, [ACCESS_FINE_LOCATION], []))
  {
    var s := Initial([], {}, [ACCESS_FINE_LOCATION, ACCESS_FINE_LOCATION]).(callbacks := Callbacks(false, false, false, true));
    var env := Platform(Q, Q, {ACCESS_FINE_LOCATION}, {}, false, false, false, false, false);
    var results := [(ACCESS_FINE_LOCATION, true)];
    assert results[..0] == [];
    assert Opening(s) == Round([], [], [], [], []);
    assert Recorded(Opening(s), results[..0], env) == Opening(s);
    assert ListRound(s, results, env) == Round([ACCESS_FINE_LOCATION], [], [], [], []);
  }

  /**
   * The result a cancel delivers and the one the round delivers when no
   * callback applied carry the same lists; they differ only in the flag,
   * which the cancel sets when nothing is refused.
   */
  lemma CancelMatchesUnhandledDelivery(t: Session)
    requires t.callbacks.request
    ensures var c := ListBuilder.OnPermissionDialogCancel(t).result;
      var d := Delivery(t, Unhandled).result;
      c.grantedList == d.grantedList && c.deniedList == d.deniedList && !d.allGranted &&
      (c.allGranted <==> t.deniedPermissions == [] && t.permanentDeniedPermissions == [])
  {
  }

  /** Recording one more result records the prefix and then that result. */
  lemma RecordedPrefix(r: Round, results: seq<GrantResult>, i: int, env: Platform)
    requires 0 <= i < |results|
    ensures Recorded(r, results[..i + 1], env) ==
      Record(Recorded(r, results[..i], env), results[i].0, results[i].1,
             env.ShouldShowRequestPermissionRationale(results[i].0))
  {
    assert results[..i + 1][..i] == results[..i];
  }

  /**
   * The recording loop: walks the result arrays by index, collects this
   * round's grants and refusals, moves names between the builder's refusal
   * sets, and finally replaces the granted set by this round's grants.
   */
  method RecordGrantResults(pb: PermissionBuilder, permissions: seq<string>, grantResults: seq<int>, env: Platform)
    returns (showReasonList: seq<string>, forwardList: seq<string>)
    requires |grantResults| <= |permissions|
    modifies pb`grantedPermissions, pb`deniedPermissions, pb`permanentDeniedPermissions
    ensures var r := ListRound(old(pb.State()), ReportedResults(permissions, grantResults), env);
      pb.grantedPermissions == r.granted && pb.deniedPermissions == r.denied &&
      pb.permanentDeniedPermissions == r.permanentDenied &&
      showReasonList == r.showReasonList && forwardList == r.forwardList
  {
    ghost var s := pb.State();
    ghost var results := ReportedResults(permissions, grantResults);
    var grantedList: seq<string> := [];
    ghost var granted: seq<string> := [];
    var denied, permanentDenied := pb.deniedPermissions, pb.permanentDeniedPermissions;
    showReasonList, forwardList := [], [];
    for i := 0 to |grantResults|
      invariant granted == AddAll([], grantedList)
      invariant Round(granted, denied, permanentDenied, showReasonList, forwardList) ==
        Recorded(Opening(s), results[..i], env)
    {
      var permission := permissions[i];
      RecordedPrefix(Opening(s), results, i, env);
      if grantResults[i] == PERMISSION_GRANTED {
        AddAllSnoc([], grantedList, permission);
        grantedList := grantedList + [permission];
        granted := Add(granted, permission);
        denied := Remove(denied, permission);
        permanentDenied := Remove(permanentDenied, permission);
      } else {
        var shouldShowReason := env.ShouldShowRequestPermissionRationale(permission);
        if shouldShowReason {
          showReasonList := showReasonList + [permission];
          denied := Add(denied, permission);
        } else {
          forwardList := forwardList + [permission];
          permanentDenied := Add(permanentDenied, permission);
          denied := Remove(denied, permission);
        }
      }
    }
    assert results[..|grantResults|] == results;
    pb.deniedPermissions := denied;
    pb.permanentDeniedPermissions := permanentDenied;
    pb.grantedPermissions := [];
    pb.grantedPermissions := AddAll(pb.grantedPermissions, grantedList);
  }

  /** The Java fragment of the `library/` list builder. */
  class ListInvisibleFragment {
    var pb: PermissionBuilder?

    constructor ()
      ensures pb == null
    {
      pb := null;
    }

    /** Keeps the builder and asks the platform for the names. */
    method RequestNow(permissionBuilder: PermissionBuilder, permissions: seq<string>) returns (a: Action)
      modifies this`pb
      ensures pb == permissionBuilder && a == LaunchPermissionRequestList(permissions)
    {
      pb := permissionBuilder;
      a := LaunchPermissionRequestList(permissions);
    }

    /**
     * `onRequestPermissionsResult`: only the permission request code is
     * handled; the round is recorded and the decision taken on the
     * builder's callbacks.
     */
    method OnRequestPermissionsResult(requestCode: int, permissions: seq<string>, grantResults: seq<int>,
                                      env: Platform, builder: PermissionBuilder)
      returns (o: Option<Outcome>)
      requires pb == builder
      requires requestCode == PERMISSION_CODE ==> |grantResults| <= |permissions|
      modifies builder`grantedPermissions, builder`deniedPermissions, builder`permanentDeniedPermissions
      ensures requestCode != PERMISSION_CODE ==> o == None && unchanged(builder)
      ensures requestCode == PERMISSION_CODE ==>
        var h := ListResult(old(builder.State()), ReportedResults(permissions, grantResults), env);
        o == Some(h.outcome) && builder.State() == h.session
    {
      if requestCode != PERMISSION_CODE {
        return None;
      }
      var showReasonList, forwardList := RecordGrantResults(builder, permissions, grantResults, env);
      if |builder.grantedPermissions| == |builder.allPermissions| {
        o := Some(FinishNow);
      } else if builder.callbacks.CanExplain() && showReasonList != [] {
        o := Some(Explain(showReasonList, builder.callbacks.ExplainVia(false), []));
      } else if builder.callbacks.forwardToSettings && forwardList != [] {
        o := Some(Forward(forwardList));
      } else {
        o := Some(Unhandled);
      }
    }

    /** What the handler does with the result callback once the user's callback returned. */
    method AfterCallback(o: Outcome) returns (a: Action)
      requires pb != null
      ensures a == Delivery(pb.State(), o)
    {
      if !pb.callbacks.request {
        return Nothing;
      }
      if o.FinishNow? {
        return DeliverResult(RequestResult(true, pb.allPermissions, []));
      }
      if o.Unhandled? || !pb.showDialogCalled {
        var deniedList := pb.deniedPermissions + pb.permanentDeniedPermissions;
        return DeliverResult(RequestResult(false, pb.grantedPermissions, deniedList));
      }
      a := Nothing;
    }

    /** Back from the settings page: ask again for the forwarded names, if the builder is still there. */
    method OnActivityResult(requestCode: int) returns (a: Action)
      ensures a.BuilderRequestAgain? <==> requestCode == SETTINGS_CODE && pb != null
      ensures a.BuilderRequestAgain? ==> a.permissions == pb.forwardPermissions
      ensures !a.BuilderRequestAgain? ==> a == Nothing
    {
      if requestCode == SETTINGS_CODE && pb != null {
        a := BuilderRequestAgain(pb.forwardPermissions);
      } else {
        a := Nothing;
      }
    }
  }

  /**
   * The Kotlin fragment of the `kotlin/` list builder: the callbacks come
   * with `requestNow`, and the result callback is always there.
   */
  class ListInvisibleFragmentKotlin {
    var permissionBuilder: PermissionBuilder?
    var callbacks: Callbacks

    constructor ()
      ensures permissionBuilder == null && !callbacks.request
    {
      permissionBuilder := null;
      callbacks := Callbacks(false, false, false, false);
    }

    /** Keeps the builder and the callbacks (the result callback is never null) and asks the platform. */
    method RequestNow(builder: PermissionBuilder, explainReason: bool, explainReasonWithBeforeParam: bool,
                      forwardToSettings: bool, permissions: seq<string>)
      returns (a: Action)
      modifies this`permissionBuilder, this`callbacks
      ensures permissionBuilder == builder
      ensures callbacks == Callbacks(explainReason, explainReasonWithBeforeParam, forwardToSettings, true)
      ensures a == LaunchPermissionRequestList(permissions)
    {
      permissionBuilder := builder;
      callbacks := Callbacks(explainReason, explainReasonWithBeforeParam, forwardToSettings, true);
      a := LaunchPermissionRequestList(permissions);
    }

    /** The session the decisions read: the builder's sets with the fragment's callbacks. */
    function View(): Session
      reads this, permissionBuilder
      requires permissionBuilder != null
    {
      permissionBuilder.State().(callbacks := callbacks)
    }

    /** `onRequestPermissionsResult`, deciding on the fragment's own callbacks. */
    method OnRequestPermissionsResult(requestCode: int, permissions: seq<string>, grantResults: seq<int>,
                                      env: Platform, builder: PermissionBuilder)
      returns (o: Option<Outcome>)
      requires permissionBuilder == builder
      requires requestCode == PERMISSION_CODE ==> |grantResults| <= |permissions|
      modifies builder`grantedPermissions, builder`deniedPermissions, builder`permanentDeniedPermissions
      ensures requestCode != PERMISSION_CODE ==> o == None && unchanged(builder)
      ensures requestCode == PERMISSION_CODE ==>
        var h := ListResult(old(View()), ReportedResults(permissions, grantResults), env);
        o == Some(h.outcome) && View() == h.session
    {
      if requestCode != PERMISSION_CODE {
        return None;
      }
      var showReasonList, forwardList := RecordGrantResults(builder, permissions, grantResults, env);
      if |builder.grantedPermissions| == |builder.allPermissions| {
        o := Some(FinishNow);
      } else if callbacks.CanExplain() && showReasonList != [] {
        o := Some(Explain(showReasonList, callbacks.ExplainVia(false), []));
      } else if callbacks.forwardToSettings && forwardList != [] {
        o := Some(Forward(forwardList));
      } else {
        o := Some(Unhandled);
      }
    }

    /** The result callback after the user's callback, on the fragment's callbacks. */
    method AfterCallback(o: Outcome) returns (a: Action)
      requires permissionBuilder != null && callbacks.request
      ensures a == Delivery(View(), o)
      ensures a.Nothing? <==> (o.Explain? || o.Forward?) && permissionBuilder.showDialogCalled
    {
      var pb := permissionBuilder;
      if o.FinishNow? {
        return DeliverResult(RequestResult(true, pb.allPermissions, []));
      }
      if o.Unhandled? || !pb.showDialogCalled {
        var deniedList := pb.deniedPermissions + pb.permanentDeniedPermissions;
        return DeliverResult(RequestResult(false, pb.grantedPermissions, deniedList));
      }
      a := Nothing;
    }

    /** Back from the settings page: ask again for the forwarded names (the builder is assumed set). */
    method OnActivityResult(requestCode: int) returns (a: Action)
      requires requestCode == SETTINGS_CODE ==> permissionBuilder != null
      ensures requestCode == SETTINGS_CODE ==> a == BuilderRequestAgain(permissionBuilder.forwardPermissions)
      ensures requestCode != SETTINGS_CODE ==> a == Nothing
    {
      if requestCode == SETTINGS_CODE {
        a := BuilderRequestAgain(permissionBuilder.forwardPermissions);
      } else {
        a := Nothing;
      }
    }
  }
}

/**
 * The earliest builder (`library/` Kotlin): no sets at all.  `request` only
 * checks whether every name is held, stopping at the first that is not;
 * there is a single explain callback without the `beforeRequest` argument,
 * and it receives every requested name.  Its fragment is not part of this
 * model.
 */
module EarliestBuilder {
  import opened Android
  import opened Steps
  import opened Builder
  import ListBuilder

  /** Every requested name is held. */
  predicate AllGranted(permissions: seq<string>, env: Platform) {
    forall i :: 0 <= i < |permissions| ==> env.IsGranted(permissions[i])
  }

  /**
   * `request`, once the callback is stored: all held delivers
   * `(true, permissions, [])`; otherwise the one-shot explain-first flag
   * with the explain callback registered clears the flag and explains every
   * requested name; otherwise the platform is asked for the names.
   */
  function RequestSpec(s: Session, permissions: seq<string>, env: Platform): (r: Step)
    ensures r.action.DeliverResult? <==> forall p :: p in permissions ==> env.IsGranted(p)
    ensures r.action.DeliverResult? ==> r.action.result == RequestResult(true, permissions, [])
    ensures r.action.CallExplainReason? <==>
      !r.action.DeliverResult? && s.explainReasonBeforeRequest && s.callbacks.explainReason
    ensures r.action.CallExplainReason? ==>
      r.action == CallExplainReason(permissions, WithoutBeforeParam) &&
      r.session == s.(explainReasonBeforeRequest := false)
    ensures !r.action.CallExplainReason? ==>
      r.session == s && r.action.DeliverResult? != r.action.LaunchPermissionRequestList?
    ensures r.action.LaunchPermissionRequestList? ==> r.action.permissions == permissions
  {
    if AllGranted(permissions, env) then Step(s, DeliverResult(RequestResult(true, permissions, [])))
    else if s.explainReasonBeforeRequest && s.callbacks.explainReason then
      Step(s.(explainReasonBeforeRequest := false), CallExplainReason(permissions, WithoutBeforeParam))
    else Step(s, LaunchPermissionRequestList(permissions))
  }

  /** The held-check loop, which stops at the first name not held. */
  method CheckAllGranted(permissions: seq<string>, env: Platform) returns (allGranted: bool)
    ensures allGranted <==> AllGranted(permissions, env)
  {
    allGranted := true;
    var i := 0;
    while i < |permissions|
      invariant 0 <= i <= |permissions|
      invariant forall k :: 0 <= k < i ==> env.IsGranted(permissions[k])
    {
      if !env.IsGranted(permissions[i]) {
        allGranted := false;
        break;
      }
      i := i + 1;
    }
  }

  /** `request(permissions, callback)`: stores the (non-null) callback and takes the first step. */
  method Request(pb: PermissionBuilder, permissions: seq<string>, env: Platform) returns (a: Action)
    modifies pb`explainReasonBeforeRequest, pb`callbacks
    ensures pb.callbacks == old(pb.callbacks).(request := true)
    ensures a == RequestSpec(old(pb.State()), permissions, env).action
    ensures pb.explainReasonBeforeRequest ==
      RequestSpec(old(pb.State()), permissions, env).session.explainReasonBeforeRequest
  {
    pb.callbacks := pb.callbacks.(request := true);
    var allGranted := CheckAllGranted(permissions, env);
    if allGranted {
      a := DeliverResult(RequestResult(true, permissions, []));
    } else if pb.explainReasonBeforeRequest && pb.callbacks.explainReason {
      pb.explainReasonBeforeRequest := false;
      a := CallExplainReason(permissions, WithoutBeforeParam);
    } else {
      a := LaunchPermissionRequestList(permissions);
    }
  }

  /** `requestAgain`: runs `request` again with the stored callback; nothing happens without one. */
  method RequestAgain(pb: PermissionBuilder, permissions: seq<string>, env: Platform) returns (a: Action)
    modifies pb`explainReasonBeforeRequest, pb`callbacks
    ensures !old(pb.callbacks.request) ==> a == Nothing && unchanged(pb)
    ensures old(pb.callbacks.request) ==>
      pb.callbacks == old(pb.callbacks) &&
      a == RequestSpec(old(pb.State()), permissions, env).action &&
      pb.explainReasonBeforeRequest == RequestSpec(old(pb.State()), permissions, env).session.explainReasonBeforeRequest
  {
    if !pb.callbacks.request {
      return Nothing;
    }
    a := Request(pb, permissions, env);
  }

  /**
   * Explaining first hands over every requested name, held ones included,
   * where the list builders hand over only the names not held yet.
   */
  lemma ExplainsHeldNamesToo(s: Session, permissions: seq<string>, env: Platform, p: string)
    requires s.explainReasonBeforeRequest && s.callbacks.explainReason
    requires p in permissions && env.IsGranted(p) && !AllGranted(permissions, env)
    ensures RequestSpec(s, permissions, env).action.CallExplainReason?
    ensures p in RequestSpec(s, permissions, env).action.permissions
    ensures var t := s.(allPermissions := permissions);
      ListBuilder.RequestSpec(t, env).action.CallExplainReason? &&
      p !in ListBuilder.RequestSpec(t, env).action.permissions
  {
    var k :| 0 <= k < |permissions| && !env.IsGranted(permissions[k]);
  }

  /**
   * `showRequestReasonDialog`: never cancelable, only a positive button,
   * which asks again for the given names; the negative text is ignored.
   */
  function ShowRequestReasonDialog(permissions: seq<string>, negativeText: Option<string>): (d: ListBuilder.ListDialog)
    ensures d.ListDialogShown? && !d.cancelable && d.negative.None?
    ensures d.positive == BuilderRequestAgain(permissions)
  {
    ListBuilder.ListDialogShown(false, BuilderRequestAgain(permissions), None)
  }

  /**
   * `showForwardToSettingsDialog`: never cancelable; the positive button
   * opens the settings page without recording the names; a negative button
   * exists for a non-null text and does nothing but close the dialog.
   */
  function ShowForwardToSettingsDialog(permissions: seq<string>, negativeText: Option<string>): (d: ListBuilder.ListDialog)
    ensures d.ListDialogShown? && !d.cancelable
    ensures d.positive == LaunchSettings
    ensures d.negative.Some? <==> negativeText.Some?
    ensures d.negative.Some? ==> d.negative.value == Nothing
  {
    ListBuilder.ListDialogShown(false, LaunchSettings, if negativeText.Some? then Some(Nothing) else None)
  }

  /**
   * Neither dialog depends on what it is not meant to: the reason dialog
   * on its negative text, the forward dialog on its list of names.
   */
  lemma DialogsIgnoreTheirExtraArgument(p: seq<string>, q: seq<string>, t: Option<string>, u: Option<string>)
    ensures ShowRequestReasonDialog(p, t) == ShowRequestReasonDialog(p, u)
    ensures ShowForwardToSettingsDialog(p, t) == ShowForwardToSettingsDialog(q, t)
  {
  }
}
