/**
 * The task that asks for the normal (runtime-dialog) permissions, in its
 * Kotlin form and in its older Java form.
 */
module RequestNormalPermissions {
  import opened Android
  import opened Steps
  import opened OrderedSet
  import opened Builder

  /** Some name of the list would get a rationale from the platform. */
  predicate AnyRationale(list: seq<string>, env: Platform) {
    exists p :: p in list && env.ShouldShowRequestPermissionRationale(p)
  }

  /**
   * The scan both versions start with: names already granted join the
   * granted set; the others, in iteration order, form the request list.
   */
  function Scanned(s: Session, env: Platform): (r: Session)
    ensures r == s.(grantedPermissions := r.grantedPermissions)
    ensures forall p :: p in r.grantedPermissions <==>
      p in s.grantedPermissions || (p in s.normalPermissions && env.IsGranted(p))
    ensures NoDup(s.grantedPermissions) ==> NoDup(r.grantedPermissions)
  {
    s.(grantedPermissions := AddAll(s.grantedPermissions, Filter(s.normalPermissions, env.granted)))
  }

  /** The names of the normal set that are not granted yet, in iteration order. */
  function RequestList(s: Session, env: Platform): (l: seq<string>)
    ensures forall p :: p in l <==> p in s.normalPermissions && !env.IsGranted(p)
    ensures NoDup(s.normalPermissions) ==> NoDup(l)
    ensures l == [] <==> forall p :: p in s.normalPermissions ==> env.IsGranted(p)
  {
    var l := Without(s.normalPermissions, env.granted);
    assert l != [] ==> l[0] in l;
    l
  }

  /**
   * The Kotlin task: finish when nothing is left to ask for; explain first
   * (recording the request list as denied) when some name would get a
   * rationale and an explain callback is registered; otherwise ask for the
   * whole normal set, granted names included.
   */
  function RequestSpec(s: Session, env: Platform): (r: Step)
    ensures Wf(s) ==> Wf(r.session)
    ensures r.session.normalPermissions == s.normalPermissions
    ensures r.session.specialPermissions == s.specialPermissions
    ensures r.action == TaskFinish <==> forall p :: p in s.normalPermissions ==> env.IsGranted(p)
    ensures r.action.CallExplainReason? <==>
      RequestList(s, env) != [] && AnyRationale(RequestList(s, env), env) && s.callbacks.CanExplain()
    ensures r.action.CallExplainReason? ==>
      r.action == CallExplainReason(RequestList(s, env), s.callbacks.ExplainVia(true)) &&
      r.session == Scanned(s, env).(deniedPermissions := AddAll(s.deniedPermissions, RequestList(s, env)))
    ensures !r.action.CallExplainReason? ==> r.session == Scanned(s, env)
    ensures r.action.LaunchPermissionRequest? ==> r.action.requested == Elems(s.normalPermissions)
    ensures r.action.TaskFinish? || r.action.CallExplainReason? || r.action.LaunchPermissionRequest?
  {
    var scanned := Scanned(s, env);
    var requestList := RequestList(s, env);
    if requestList == [] then Step(scanned, TaskFinish)
    else if AnyRationale(requestList, env) && s.callbacks.CanExplain() then
      Step(scanned.(deniedPermissions := AddAll(s.deniedPermissions, requestList)),
           CallExplainReason(requestList, s.callbacks.ExplainVia(true)))
    else Step(scanned, LaunchPermissionRequest(Elems(s.normalPermissions)))
  }

  /**
   * The Java task: the same, except that explaining first is decided by the
   * one-shot explain-before-request flag, which is cleared when used.
   */
  function RequestSpecJava(s: Session, env: Platform): (r: Step)
    ensures Wf(s) ==> Wf(r.session)
    ensures r.session.normalPermissions == s.normalPermissions
    ensures r.action == TaskFinish <==> forall p :: p in s.normalPermissions ==> env.IsGranted(p)
    ensures r.action.CallExplainReason? <==>
      RequestList(s, env) != [] && s.explainReasonBeforeRequest && s.callbacks.CanExplain()
    ensures r.action.CallExplainReason? ==>
      r.action == CallExplainReason(RequestList(s, env), s.callbacks.ExplainVia(true)) &&
      r.session == Scanned(s, env).(explainReasonBeforeRequest := false,
                                    deniedPermissions := AddAll(s.deniedPermissions, RequestList(s, env)))
    ensures !r.action.CallExplainReason? ==> r.session == Scanned(s, env)
    ensures r.action.LaunchPermissionRequest? ==> r.action.requested == Elems(s.normalPermissions)
  {
    var scanned := Scanned(s, env);
    var requestList := RequestList(s, env);
    if requestList == [] then Step(scanned, TaskFinish)
    else if s.explainReasonBeforeRequest && s.callbacks.CanExplain() then
      Step(scanned.(explainReasonBeforeRequest := false,
                    deniedPermissions := AddAll(s.deniedPermissions, requestList)),
           CallExplainReason(requestList, s.callbacks.ExplainVia(true)))
    else Step(scanned, LaunchPermissionRequest(Elems(s.normalPermissions)))
  }

  /** Whether any name of the list would get a rationale; stops at the first. */
  method ShouldShowRequestPermissionRationale(requestList: seq<string>, env: Platform) returns (b: bool)
    ensures b <==> AnyRationale(requestList, env)
  {
    var i := 0;
    while i < |requestList|
      invariant 0 <= i <= |requestList|
      invariant forall k :: 0 <= k < i ==> !env.ShouldShowRequestPermissionRationale(requestList[k])
    {
      if env.ShouldShowRequestPermissionRationale(requestList[i]) {
        return true;
      }
      i := i + 1;
    }
    return false;
  }

  /** The scan loop shared by both versions. */
  method Scan(pb: PermissionBuilder, env: Platform) returns (requestList: seq<string>)
    modifies pb`grantedPermissions
    ensures pb.grantedPermissions == Scanned(old(pb.State()), env).grantedPermissions
    ensures requestList == RequestList(old(pb.State()), env)
  {
    var normal := pb.normalPermissions;
    var granted0 := pb.grantedPermissions;
    var granted := granted0;
    requestList := [];
    var i := 0;
    while i < |normal|
      invariant 0 <= i <= |normal|
      invariant requestList == Without(normal[..i], env.granted)
      invariant granted == AddAll(granted0, Filter(normal[..i], env.granted))
    {
      var permission := normal[i];
      ghost var done := normal[..i];
      assert normal[..i + 1] == done + [permission];
      FilterSnoc(done, permission, env.granted);
      WithoutSnoc(done, permission, env.granted);
      if env.IsGranted(permission) {
        AddAllSnoc(granted0, Filter(done, env.granted), permission);
        granted := Add(granted, permission);
      } else {
        requestList := requestList + [permission];
      }
      i := i + 1;
    }
    assert normal[..i] == normal;
    pb.grantedPermissions := granted;
  }

  method Request(pb: PermissionBuilder, env: Platform) returns (a: Action)
    modifies pb`grantedPermissions, pb`deniedPermissions
    ensures a == RequestSpec(old(pb.State()), env).action
    ensures pb.grantedPermissions == RequestSpec(old(pb.State()), env).session.grantedPermissions
    ensures pb.deniedPermissions == RequestSpec(old(pb.State()), env).session.deniedPermissions
  {
    var requestList := Scan(pb, env);
    if requestList == [] {
      return TaskFinish;
    }
    var rationale := ShouldShowRequestPermissionRationale(requestList, env);
    if rationale && pb.callbacks.CanExplain() {
      pb.deniedPermissions := AddAll(pb.deniedPermissions, requestList);
      a := CallExplainReason(requestList, pb.callbacks.ExplainVia(true));
    } else {
      a := LaunchPermissionRequest(Elems(pb.normalPermissions));
    }
  }

  method RequestJava(pb: PermissionBuilder, env: Platform) returns (a: Action)
    modifies pb`grantedPermissions, pb`deniedPermissions, pb`explainReasonBeforeRequest
    ensures a == RequestSpecJava(old(pb.State()), env).action
    ensures pb.grantedPermissions == RequestSpecJava(old(pb.State()), env).session.grantedPermissions
    ensures pb.deniedPermissions == RequestSpecJava(old(pb.State()), env).session.deniedPermissions
    ensures pb.explainReasonBeforeRequest == RequestSpecJava(old(pb.State()), env).session.explainReasonBeforeRequest
  {
    var requestList := Scan(pb, env);
    if requestList == [] {
      return TaskFinish;
    }
    if pb.explainReasonBeforeRequest && pb.callbacks.CanExplain() {
      pb.explainReasonBeforeRequest := false;
      pb.deniedPermissions := AddAll(pb.deniedPermissions, requestList);
      a := CallExplainReason(requestList, pb.callbacks.ExplainVia(true));
    } else {
      a := LaunchPermissionRequest(Elems(pb.normalPermissions));
    }
  }

  /**
   * Asking again covers what is granted so far together with the given
   * names (so a grant revoked in the meantime is noticed); with nothing to
   * ask for, the task finishes.
   */
  function RequestAgain(s: Session, permissions: seq<string>): (a: Action)
    ensures a.LaunchPermissionRequest? || a == TaskFinish
    ensures a.LaunchPermissionRequest? ==>
      forall p :: p in a.requested <==> p in s.grantedPermissions || p in permissions
    ensures a == TaskFinish <==> s.grantedPermissions == [] && permissions == []
  {
    ElemsEmpty(s.grantedPermissions);
    ElemsEmpty(permissions);
    var permissionsToRequestAgain := Elems(s.grantedPermissions) + Elems(permissions);
    if permissionsToRequestAgain != {} then LaunchPermissionRequest(permissionsToRequestAgain)
    else TaskFinish
  }
}
