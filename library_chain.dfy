/**
 * The first chained generation of the library: the normal task's
 * `requestAgain`, and the invisible fragment, whose normal-permission
 * handler ignores the reported results and checks every normal permission
 * live instead.  The normal task's `request` is the Java one of the current
 * engine, and the background-location task is the flag-driven one.
 */
module ChainedLibrary {
  import opened Android
  import opened Steps
  import opened OrderedSet
  import opened Builder
  import opened InvisibleFragment
  import Current = RequestNormalPermissions

  /**
   * Asking again requests what is granted so far together with the given
   * names, without checking that anything is left to ask for.
   */
  function RequestAgain(s: Session, permissions: seq<string>): (a: Action)
    ensures a.LaunchPermissionRequest?
    ensures forall p :: p in a.requested <==> p in s.grantedPermissions || p in permissions
  {
    LaunchPermissionRequest(Elems(s.grantedPermissions) + Elems(permissions))
  }

  /**
   * The two generations ask again for the same names; they differ only when
   * there are none, where this one launches an empty request and the
   * current one finishes the task.
   */
  lemma RequestAgainAgreesWithCurrent(s: Session, permissions: seq<string>)
    ensures s.grantedPermissions != [] || permissions != [] ==>
      RequestAgain(s, permissions) == Current.RequestAgain(s, permissions)
    ensures s.grantedPermissions == [] && permissions == [] ==>
      RequestAgain(s, permissions) == LaunchPermissionRequest({}) &&
      Current.RequestAgain(s, permissions) == TaskFinish
  {
    ElemsEmpty(s.grantedPermissions);
    ElemsEmpty(permissions);
  }

  /** The platform's current answer for each name, as result entries in the names' order. */
  function LiveResults(names: seq<string>, env: Platform): seq<GrantResult> {
    seq(|names|, i requires 0 <= i < |names| => (names[i], env.IsGranted(names[i])))
  }

  /** The live entry of a name is its only entry. */
  lemma {:induction false} LiveResultFor(names: seq<string>, env: Platform, p: string)
    ensures ResultFor(LiveResults(names, env), p) == if p in names then Some(env.IsGranted(p)) else None
  {
    if names != [] {
      var init := names[..|names| - 1];
      assert LiveResults(names, env)[..|names| - 1] == LiveResults(init, env);
      LiveResultFor(init, env, p);
      InPrefixOrLast(names, p);
    }
  }

  /** A duplicate-free list of names gives entries with distinct keys. */
  lemma LiveResultsDistinct(names: seq<string>, env: Platform)
    requires NoDup(names)
    ensures DistinctKeys(LiveResults(names, env))
  {
  }

  /** A name has a granted entry exactly when it is listed and held now. */
  lemma LiveGrantEntry(names: seq<string>, env: Platform, p: string)
    ensures (p, true) in LiveResults(names, env) <==> p in names && env.IsGranted(p)
  {
    var results := LiveResults(names, env);
    if p in names && env.IsGranted(p) {
      var i :| 0 <= i < |names| && names[i] == p;
      assert results[i] == (p, true);
    }
  }

  /**
   * The sets after the live check: the granted set is cleared, then every
   * normal permission is recorded as the platform answers now.
   */
  function LiveRound(s: Session, env: Platform): Round {
    Recorded(Opening(s), LiveResults(s.normalPermissions, env), env)
  }

  /**
   * The decision after the live check.  Everything counts as granted when
   * the granted set is as large as the normal set.  Otherwise the explain
   * callback runs when registered and the denied set is not empty, and the
   * forward callback when registered and the permanently denied set is not
   * empty; each receives its whole set.
   */
  function DecideLive(s: Session, r: Round): (o: Outcome)
    ensures o.FinishNow? <==> |r.granted| == |s.normalPermissions|
    ensures o.Explain? <==> !o.FinishNow? && s.callbacks.CanExplain() && r.denied != []
    ensures o.Explain? ==> o == Explain(r.denied, s.callbacks.ExplainVia(false), [])
    ensures o.Forward? <==>
      !o.FinishNow? && !o.Explain? && s.callbacks.forwardToSettings && r.permanentDenied != []
    ensures o.Forward? ==> o.permissions == r.permanentDenied
  {
    if |r.granted| == |s.normalPermissions| then FinishNow
    else if s.callbacks.CanExplain() && r.denied != [] then Explain(r.denied, s.callbacks.ExplainVia(false), [])
    else if s.callbacks.forwardToSettings && r.permanentDenied != [] then Forward(r.permanentDenied)
    else Unhandled
  }

  /** The normal-permission result handler up to the callback. */
  function LiveNormalResult(s: Session, env: Platform): Handled {
    var r := LiveRound(s, env);
    Handled(s.(grantedPermissions := r.granted, deniedPermissions := r.denied,
               permanentDeniedPermissions := r.permanentDenied),
            DecideLive(s, r))
  }

  /**
   * Where each name ends up.  Granted: exactly the normal permissions held
   * now.  A normal permission not held is denied when it gets a rationale,
   * and permanently denied when it gets none or already was; one held now is
   * in neither.  Names outside the normal set keep their places.
   */
  lemma LiveResultSets(s: Session, env: Platform, p: string)
    requires NoDup(s.normalPermissions)
    ensures var t := LiveNormalResult(s, env).session;
      (p in t.grantedPermissions <==> p in s.normalPermissions && env.IsGranted(p)) &&
      (p in t.deniedPermissions <==>
        if p in s.normalPermissions then !env.IsGranted(p) && env.ShouldShowRequestPermissionRationale(p)
        else p in s.deniedPermissions) &&
      (p in t.permanentDeniedPermissions <==>
        if p in s.normalPermissions then
          !env.IsGranted(p) && (!env.ShouldShowRequestPermissionRationale(p) || p in s.permanentDeniedPermissions)
        else p in s.permanentDeniedPermissions)
  {
    var results := LiveResults(s.normalPermissions, env);
    LiveResultsDistinct(s.normalPermissions, env);
    LiveResultFor(s.normalPermissions, env, p);
    LiveGrantEntry(s.normalPermissions, env, p);
    RecordedGranted(Opening(s), results, env, p);
    RecordedSides(Opening(s), results, env, p);
  }

  /** A set inside a finite set with one more element is smaller. */
  lemma {:induction false} SmallerWhenOneMissing(a: set<string>, b: set<string>, q: string)
    requires a <= b && q in b && q !in a
    ensures |a| < |b|
  {
    assert a <= b - {q};
    SubsetCard(a, b - {q});
  }

  lemma {:induction false} SubsetCard(a: set<string>, b: set<string>)
    requires a <= b
    ensures |a| <= |b|
    decreases |b|
  {
    if a != {} {
      var x :| x in a;
      SubsetCard(a - {x}, b - {x});
    }
  }

  /**
   * The handler finishes at once exactly when every normal permission is
   * held now.
   */
  lemma FinishesIffAllHeld(s: Session, env: Platform)
    requires Wf(s)
    ensures LiveNormalResult(s, env).outcome == FinishNow <==> forall p :: p in s.normalPermissions ==> env.IsGranted(p)
  {
    var g := LiveNormalResult(s, env).session.grantedPermissions;
    RecordedNoDup(Opening(s), LiveResults(s.normalPermissions, env), env);
    forall p
      ensures p in g <==> p in s.normalPermissions && env.IsGranted(p)
    {
      LiveResultSets(s, env, p);
    }
    NoDupCard(g);
    NoDupCard(s.normalPermissions);
    if forall p :: p in s.normalPermissions ==> env.IsGranted(p) {
      assert Elems(g) == Elems(s.normalPermissions);
    } else {
      var q :| q in s.normalPermissions && !env.IsGranted(q);
      SmallerWhenOneMissing(Elems(g), Elems(s.normalPermissions), q);
    }
  }

  /**
   * When the refusal sets hold only normal permissions, the explain callback
   * receives exactly the normal permissions refused now with a rationale.
   */
  lemma ExplainGetsLiveRationaleRefusals(s: Session, env: Platform, p: string)
    requires NoDup(s.normalPermissions)
    requires forall q :: q in s.deniedPermissions ==> q in s.normalPermissions
    requires LiveNormalResult(s, env).outcome.Explain?
    ensures p in LiveNormalResult(s, env).outcome.permissions <==>
      p in s.normalPermissions && !env.IsGranted(p) && env.ShouldShowRequestPermissionRationale(p)
  {
    LiveResultSets(s, env, p);
  }

  /**
   * The background-location result, handled only from Android Q on (below
   * it the handler does nothing at all).  Held now: recorded as granted and
   * the task finishes.  Otherwise nothing is recorded; the explain callback
   * gets background location when registered and a rationale is shown, else
   * the forward callback gets it when registered and the permanently denied
   * set is not empty.
   */
  function BackgroundResult(s: Session, env: Platform): (h: Option<Handled>)
    ensures h.None? <==> env.sdkInt < Q
    ensures h.Some? && env.IsGranted(ACCESS_BACKGROUND_LOCATION) ==>
      h.value == Handled(s.(grantedPermissions := Add(s.grantedPermissions, ACCESS_BACKGROUND_LOCATION),
                            deniedPermissions := Remove(s.deniedPermissions, ACCESS_BACKGROUND_LOCATION),
                            permanentDeniedPermissions := Remove(s.permanentDeniedPermissions, ACCESS_BACKGROUND_LOCATION)),
                         FinishNow)
    ensures h.Some? && !env.IsGranted(ACCESS_BACKGROUND_LOCATION) ==> h.value.session == s
    ensures h.Some? ==> (h.value.outcome.Explain? <==>
      !env.IsGranted(ACCESS_BACKGROUND_LOCATION) && s.callbacks.CanExplain() &&
      env.ShouldShowRequestPermissionRationale(ACCESS_BACKGROUND_LOCATION))
    ensures h.Some? && h.value.outcome.Explain? ==>
      h.value.outcome == Explain([ACCESS_BACKGROUND_LOCATION], s.callbacks.ExplainVia(false), [])
    ensures h.Some? ==> (h.value.outcome.Forward? <==>
      !env.IsGranted(ACCESS_BACKGROUND_LOCATION) && !h.value.outcome.Explain? &&
      s.callbacks.forwardToSettings && s.permanentDeniedPermissions != [])
    ensures h.Some? && h.value.outcome.Forward? ==> h.value.outcome == Forward([ACCESS_BACKGROUND_LOCATION])
  {
    if env.sdkInt < Q then None
    else if env.IsGranted(ACCESS_BACKGROUND_LOCATION) then
      Some(Handled(s.(grantedPermissions := Add(s.grantedPermissions, ACCESS_BACKGROUND_LOCATION),
                      deniedPermissions := Remove(s.deniedPermissions, ACCESS_BACKGROUND_LOCATION),
                      permanentDeniedPermissions := Remove(s.permanentDeniedPermissions, ACCESS_BACKGROUND_LOCATION)),
                   FinishNow))
    else if s.callbacks.CanExplain() && env.ShouldShowRequestPermissionRationale(ACCESS_BACKGROUND_LOCATION) then
      Some(Handled(s, Explain([ACCESS_BACKGROUND_LOCATION], s.callbacks.ExplainVia(false), [])))
    else if s.callbacks.forwardToSettings && s.permanentDeniedPermissions != [] then
      Some(Handled(s, Forward([ACCESS_BACKGROUND_LOCATION])))
    else Some(Handled(s, Unhandled))
  }

  /**
   * The forward branch is keyed on refusals recorded earlier, not on this
   * one: a refusal without a rationale and with no other permanent refusal
   * reaches no callback, where the current engine forwards it; with an
   * unrelated permanent refusal on record it is forwarded even with a
   * rationale shown, when no explain callback is registered.
   */
  lemma ForwardKeyedOnEarlierRefusals(s: Session, env: Platform)
    requires env.sdkInt >= Q && !env.IsGranted(ACCESS_BACKGROUND_LOCATION) && s.callbacks.forwardToSettings
    ensures (!env.ShouldShowRequestPermissionRationale(ACCESS_BACKGROUND_LOCATION) &&
             s.permanentDeniedPermissions == []) ==>
      BackgroundResult(s, env) == Some(Handled(s, Unhandled)) &&
      SingleResult(s, ACCESS_BACKGROUND_LOCATION, false, env).outcome == Forward([ACCESS_BACKGROUND_LOCATION])
    ensures !s.callbacks.CanExplain() && s.permanentDeniedPermissions != [] ==>
      BackgroundResult(s, env) == Some(Handled(s, Forward([ACCESS_BACKGROUND_LOCATION])))
  {
  }

  /** The request code of the return from the app's settings page (`FORWARD_TO_SETTINGS` in this generation). */
  const SETTINGS_REQUEST_CODE: int := 2

  /** The fragment: the builder of the request in flight, unset until the first launch. */
  class ChainedFragment {
    var pb: PermissionBuilder?

    constructor ()
      ensures pb == null
    {
      pb := null;
    }

    /** Attaches the builder and asks the platform for the given names. */
    method RequestNow(permissionBuilder: PermissionBuilder, permissions: set<string>) returns (l: Launch)
      modifies this
      ensures pb == permissionBuilder && l == RuntimeDialog(permissions)
    {
      pb := permissionBuilder;
      l := RuntimeDialog(permissions);
    }

    /** Attaches the builder; asks for background location only from Android Q on. */
    method RequestBackgroundLocationPermissionNow(permissionBuilder: PermissionBuilder, env: Platform)
      returns (l: Option<Launch>)
      modifies this
      ensures pb == permissionBuilder
      ensures l.Some? <==> env.sdkInt >= Q
      ensures l.Some? ==> l.value == RuntimeDialog({ACCESS_BACKGROUND_LOCATION})
    {
      pb := permissionBuilder;
      l := None;
      if env.sdkInt >= Q {
        l := Some(RuntimeDialog({ACCESS_BACKGROUND_LOCATION}));
      }
    }

    /**
     * The normal-permission result, up to the callback: every normal
     * permission is checked live and recorded on the builder's sets in turn.
     */
    method OnRequestNormalPermissionsResult(env: Platform) returns (o: Outcome)
      requires pb != null
      modifies pb`grantedPermissions, pb`deniedPermissions, pb`permanentDeniedPermissions
      ensures o == LiveNormalResult(old(pb.State()), env).outcome
      ensures pb.grantedPermissions == LiveNormalResult(old(pb.State()), env).session.grantedPermissions
      ensures pb.deniedPermissions == LiveNormalResult(old(pb.State()), env).session.deniedPermissions
      ensures pb.permanentDeniedPermissions == LiveNormalResult(old(pb.State()), env).session.permanentDeniedPermissions
    {
      var s := pb.State();
      var normal := pb.normalPermissions;
      var granted: seq<string> := [];
      var denied, permanentDenied := pb.deniedPermissions, pb.permanentDeniedPermissions;
      ghost var showReasonList: seq<string> := [];
      ghost var forwardList: seq<string> := [];
      var i := 0;
      while i < |normal|
        invariant 0 <= i <= |normal|
        invariant Round(granted, denied, permanentDenied, showReasonList, forwardList) ==
          Recorded(Opening(s), LiveResults(normal[..i], env), env)
      {
        var permission := normal[i];
        assert LiveResults(normal[..i + 1], env)[..i] == LiveResults(normal[..i], env);
        if env.IsGranted(permission) {
          granted := Add(granted, permission);
          denied := Remove(denied, permission);
          permanentDenied := Remove(permanentDenied, permission);
        } else {
          var shouldShowRationale := env.ShouldShowRequestPermissionRationale(permission);
          if shouldShowRationale {
            denied := Add(denied, permission);
            showReasonList := showReasonList + [permission];
          } else {
            permanentDenied := Add(permanentDenied, permission);
            denied := Remove(denied, permission);
            forwardList := forwardList + [permission];
          }
        }
        i := i + 1;
      }
      assert normal[..i] == normal;
      pb.grantedPermissions := granted;
      pb.deniedPermissions := denied;
      pb.permanentDeniedPermissions := permanentDenied;
      if |granted| == |normal| {
        o := FinishNow;
      } else if s.callbacks.CanExplain() && denied != [] {
        o := Explain(denied, s.callbacks.ExplainVia(false), []);
      } else if s.callbacks.forwardToSettings && permanentDenied != [] {
        o := Forward(permanentDenied);
      } else {
        o := Unhandled;
      }
    }

    /** The background-location result, up to the callback. */
    method OnRequestBackgroundLocationPermissionResult(env: Platform) returns (o: Option<Outcome>)
      requires pb != null
      modifies pb`grantedPermissions, pb`deniedPermissions, pb`permanentDeniedPermissions
      ensures var h := BackgroundResult(old(pb.State()), env);
        (h.None? ==> o == None) &&
        (h.Some? ==>
          o == Some(h.value.outcome) &&
          pb.grantedPermissions == h.value.session.grantedPermissions &&
          pb.deniedPermissions == h.value.session.deniedPermissions &&
          pb.permanentDeniedPermissions == h.value.session.permanentDeniedPermissions)
    {
      if env.sdkInt < Q {
        return None;
      }
      if env.IsGranted(ACCESS_BACKGROUND_LOCATION) {
        pb.grantedPermissions := Add(pb.grantedPermissions, ACCESS_BACKGROUND_LOCATION);
        pb.deniedPermissions := Remove(pb.deniedPermissions, ACCESS_BACKGROUND_LOCATION);
        pb.permanentDeniedPermissions := Remove(pb.permanentDeniedPermissions, ACCESS_BACKGROUND_LOCATION);
        return Some(FinishNow);
      }
      var shouldShowRationale := env.ShouldShowRequestPermissionRationale(ACCESS_BACKGROUND_LOCATION);
      if pb.callbacks.CanExplain() && shouldShowRationale {
        o := Some(Explain([ACCESS_BACKGROUND_LOCATION], pb.callbacks.ExplainVia(false), []));
      } else if pb.callbacks.forwardToSettings && pb.permanentDeniedPermissions != [] {
        o := Some(Forward([ACCESS_BACKGROUND_LOCATION]));
      } else {
        o := Some(Unhandled);
      }
    }

    /**
     * Back from a handler's callback: the task finishes unless a callback ran
     * and showed a dialog.  Neither handler resets the dialog flag.
     */
    method ResumeAfterCallback(o: Outcome) returns (finish: bool)
      requires pb != null
      ensures finish == FinishesAfterCallback(o, pb.showDialogCalled)
    {
      finish := o.FinishNow? || o.Unhandled? || !pb.showDialogCalled;
    }

    /**
     * Back from the app's settings page the builder asks again for the
     * forwarded names; a builder lost in the meantime means nothing happens.
     */
    method OnActivityResult(requestCode: int) returns (a: Action)
      ensures requestCode == SETTINGS_REQUEST_CODE && pb != null ==> a == BuilderRequestAgain(pb.forwardPermissions)
      ensures requestCode != SETTINGS_REQUEST_CODE || pb == null ==> a == Nothing
    {
      a := Nothing;
      if requestCode == SETTINGS_REQUEST_CODE {
        if pb != null {
          a := BuilderRequestAgain(pb.forwardPermissions);
        }
      }
    }
  }
}
