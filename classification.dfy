/**
 * Classification of the requested names, as each generation's entry point
 * does it before a builder is created.  The current entry point splits the
 * names into normal and special sets; the older ones keep one set and take
 * background location (and, in one generation, the overlay permission) out
 * of it under version rules, recording what cannot be requested at all.
 *
 * Hash sets are modelled as Dafny sets: their iteration order is not
 * specified, and nothing here depends on it.
 */
module PermissionMediator {
  import opened Android

  /** The two sets a builder is created with. */
  datatype Classified = Classified(normal: set<string>, special: set<string>)

  /** The names of a request, once duplicates collapse. */
  function Names(permissions: seq<string>): set<string> {
    set p | p in permissions
  }

  /**
   * Background location is asked for through the runtime dialog on Android
   * 10 itself, and on Android 11 when the app targets an earlier version.
   */
  predicate MovesBackgroundLocation(osVersion: int, targetSdkVersion: int) {
    osVersion == Q || (osVersion == R && targetSdkVersion < R)
  }

  /**
   * The classification.  Every name lands in exactly one set; a name is
   * special exactly when it is one of the special names, except that
   * background location becomes normal under the version rule above.
   */
  function Classify(permissions: seq<string>, osVersion: int, targetSdkVersion: int): (c: Classified)
    ensures c.normal + c.special == Names(permissions)
    ensures c.normal !! c.special
    ensures forall p :: p in permissions && p != ACCESS_BACKGROUND_LOCATION ==>
      (p in c.special <==> p in AllSpecialPermissions)
    ensures ACCESS_BACKGROUND_LOCATION in permissions ==>
      (ACCESS_BACKGROUND_LOCATION in c.normal <==> MovesBackgroundLocation(osVersion, targetSdkVersion))
  {
    var normal := set p | p in permissions && p !in AllSpecialPermissions;
    var special := set p | p in permissions && p in AllSpecialPermissions;
    if ACCESS_BACKGROUND_LOCATION in special && MovesBackgroundLocation(osVersion, targetSdkVersion) then
      Classified(normal + {ACCESS_BACKGROUND_LOCATION}, special - {ACCESS_BACKGROUND_LOCATION})
    else Classified(normal, special)
  }

  /** Only the names matter: reordering or repeating them changes nothing. */
  lemma ClassifyDependsOnlyOnNames(a: seq<string>, b: seq<string>, osVersion: int, targetSdkVersion: int)
    requires Names(a) == Names(b)
    ensures Classify(a, osVersion, targetSdkVersion) == Classify(b, osVersion, targetSdkVersion)
  {
    assert forall p :: p in a <==> p in Names(a);
    assert forall p :: p in b <==> p in Names(b);
  }

  /** `permissions(List)`: one pass that sorts each name into a set, then the background-location rule. */
  method Permissions(permissions: seq<string>, osVersion: int, targetSdkVersion: int) returns (c: Classified)
    ensures c == Classify(permissions, osVersion, targetSdkVersion)
  {
    var normalPermissionSet: set<string> := {};
    var specialPermissionSet: set<string> := {};
    for i := 0 to |permissions|
      invariant normalPermissionSet == set p | p in permissions[..i] && p !in AllSpecialPermissions
      invariant specialPermissionSet == set p | p in permissions[..i] && p in AllSpecialPermissions
    {
      assert permissions[..i + 1] == permissions[..i] + [permissions[i]];
      if permissions[i] in AllSpecialPermissions {
        specialPermissionSet := specialPermissionSet + {permissions[i]};
      } else {
        normalPermissionSet := normalPermissionSet + {permissions[i]};
      }
    }
    assert permissions[..|permissions|] == permissions;
    if ACCESS_BACKGROUND_LOCATION in specialPermissionSet {
      if osVersion == Q || (osVersion == R && targetSdkVersion < R) {
        specialPermissionSet := specialPermissionSet - {ACCESS_BACKGROUND_LOCATION};
        normalPermissionSet := normalPermissionSet + {ACCESS_BACKGROUND_LOCATION};
      }
    }
    c := Classified(normalPermissionSet, specialPermissionSet);
  }
}

/** The classification of the chained Java generation, with the overlay rule. */
module PermissionCollection {
  import opened Android
  import opened PermissionMediator

  /** The builder's requested set, the names that cannot be requested, and the two require-flags. */
  datatype Collected = Collected(
    permissionSet: set<string>,
    permissionsWontRequest: set<string>,
    requireBackgroundLocationPermission: bool,
    requireSystemAlertWindowPermission: bool)

  /**
   * Background location is taken out to be requested on its own from
   * Android 11 with an Android 11 target; below Android 10 it is taken out
   * and reported as not requested; otherwise it stays.  The overlay
   * permission is taken out to be requested on its own from Android 6 with
   * an Android 6 target, and stays otherwise.  No other name moves.
   */
  function Collect(permissions: seq<string>, osVersion: int, targetSdkVersion: int): (c: Collected)
    ensures forall p :: p != ACCESS_BACKGROUND_LOCATION && p != SYSTEM_ALERT_WINDOW ==>
      (p in c.permissionSet <==> p in permissions)
    ensures c.requireBackgroundLocationPermission <==>
      ACCESS_BACKGROUND_LOCATION in permissions && osVersion >= R && targetSdkVersion >= R
    ensures ACCESS_BACKGROUND_LOCATION in c.permissionSet <==>
      ACCESS_BACKGROUND_LOCATION in permissions && osVersion >= Q && !(osVersion >= R && targetSdkVersion >= R)
    ensures c.permissionsWontRequest ==
      if ACCESS_BACKGROUND_LOCATION in permissions && osVersion < Q then {ACCESS_BACKGROUND_LOCATION} else {}
    ensures c.requireSystemAlertWindowPermission <==>
      SYSTEM_ALERT_WINDOW in permissions && osVersion >= M && targetSdkVersion >= M
    ensures SYSTEM_ALERT_WINDOW in c.permissionSet <==>
      SYSTEM_ALERT_WINDOW in permissions && !c.requireSystemAlertWindowPermission
  {
    var names := Names(permissions);
    var bg := ACCESS_BACKGROUND_LOCATION in names;
    var requireBg := bg && osVersion >= R && targetSdkVersion >= R;
    var wontRequest := bg && !requireBg && osVersion < Q;
    var requireSaw := SYSTEM_ALERT_WINDOW in names && osVersion >= M && targetSdkVersion >= M;
    Collected(
      names - (if requireBg || wontRequest then {ACCESS_BACKGROUND_LOCATION} else {})
            - (if requireSaw then {SYSTEM_ALERT_WINDOW} else {}),
      if wontRequest then {ACCESS_BACKGROUND_LOCATION} else {},
      requireBg,
      requireSaw)
  }

  /** Only the names matter. */
  lemma CollectDependsOnlyOnNames(a: seq<string>, b: seq<string>, osVersion: int, targetSdkVersion: int)
    requires Names(a) == Names(b)
    ensures Collect(a, osVersion, targetSdkVersion) == Collect(b, osVersion, targetSdkVersion)
  {
  }

  /** `permissions(List)`, step by step on the hash set and the two flags. */
  method Permissions(permissions: seq<string>, osVersion: int, targetSdkVersion: int) returns (c: Collected)
    ensures c == Collect(permissions, osVersion, targetSdkVersion)
  {
    var permissionSet := Names(permissions);
    var requireBackgroundLocationPermission := false;
    var requireSystemAlertWindowPermission := false;
    var permissionsWontRequest: set<string> := {};
    if ACCESS_BACKGROUND_LOCATION in permissionSet {
      if osVersion >= R && targetSdkVersion >= R {
        requireBackgroundLocationPermission := true;
        permissionSet := permissionSet - {ACCESS_BACKGROUND_LOCATION};
      } else if osVersion < Q {
        permissionSet := permissionSet - {ACCESS_BACKGROUND_LOCATION};
        permissionsWontRequest := permissionsWontRequest + {ACCESS_BACKGROUND_LOCATION};
      }
    }
    if SYSTEM_ALERT_WINDOW in permissionSet {
      if osVersion >= M && targetSdkVersion >= M {
        requireSystemAlertWindowPermission := true;
        permissionSet := permissionSet - {SYSTEM_ALERT_WINDOW};
      }
    }
    c := Collected(permissionSet, permissionsWontRequest, requireBackgroundLocationPermission,
                   requireSystemAlertWindowPermission);
  }
}

/**
 * The classification of the two library generations, which know only the
 * background-location rule.  The chain-less one compares against the
 * literal levels 30 and 29; the first chained one requires the platform's
 * development target code 10000 for the separate request.
 */
module PermissionCollectionLibrary {
  import opened Android
  import opened PermissionMediator

  /** The builder's requested set, the names that cannot be requested, and the require-flag. */
  datatype Collected = Collected(
    permissionSet: set<string>,
    permissionsWontRequest: set<string>,
    requireBackgroundLocationPermission: bool)

  /** `Build.VERSION_CODES.CUR_DEVELOPMENT`. */
  const CUR_DEVELOPMENT: int := 10000

  /** Whether a generation takes background location out to request it on its own. */
  predicate SeparateRequest(chained: bool, osVersion: int, targetSdkVersion: int) {
    if chained then osVersion >= 29 && targetSdkVersion == CUR_DEVELOPMENT
    else osVersion >= 30 && targetSdkVersion >= 30
  }

  /**
   * Background location is taken out for a separate request under the
   * generation's rule; otherwise below level 29 it is taken out and
   * reported as not requested; otherwise it stays.  No other name moves.
   */
  function Collect(chained: bool, permissions: seq<string>, osVersion: int, targetSdkVersion: int): (c: Collected)
    ensures forall p :: p != ACCESS_BACKGROUND_LOCATION ==> (p in c.permissionSet <==> p in permissions)
    ensures c.requireBackgroundLocationPermission <==>
      ACCESS_BACKGROUND_LOCATION in permissions && SeparateRequest(chained, osVersion, targetSdkVersion)
    ensures ACCESS_BACKGROUND_LOCATION in c.permissionSet <==>
      ACCESS_BACKGROUND_LOCATION in permissions && osVersion >= 29 &&
      !SeparateRequest(chained, osVersion, targetSdkVersion)
    ensures c.permissionsWontRequest ==
      if ACCESS_BACKGROUND_LOCATION in permissions && osVersion < 29 then {ACCESS_BACKGROUND_LOCATION} else {}
  {
    var names := Names(permissions);
    var bg := ACCESS_BACKGROUND_LOCATION in names;
    var separate := bg && SeparateRequest(chained, osVersion, targetSdkVersion);
    var wontRequest := bg && !separate && osVersion < 29;
    Collected(
      names - (if separate || wontRequest then {ACCESS_BACKGROUND_LOCATION} else {}),
      if wontRequest then {ACCESS_BACKGROUND_LOCATION} else {},
      separate)
  }

  /**
   * The rules differ: on Android 11 with an Android 11 target the chain-less
   * generation requests background location separately and the first
   * chained one keeps it with the others.
   */
  lemma GenerationsDisagreeOnAndroid11()
    ensures Collect(false, [ACCESS_BACKGROUND_LOCATION], R, R).requireBackgroundLocationPermission
    ensures ACCESS_BACKGROUND_LOCATION in Collect(true, [ACCESS_BACKGROUND_LOCATION], R, R).permissionSet
  {
    assert ACCESS_BACKGROUND_LOCATION in Names([ACCESS_BACKGROUND_LOCATION]);
  }

  /** `permissions(List)` of the chain-less generation. */
  method Permissions(permissions: seq<string>, osVersion: int, targetSdkVersion: int) returns (c: Collected)
    ensures c == Collect(false, permissions, osVersion, targetSdkVersion)
  {
    var permissionSet := Names(permissions);
    var requireBackgroundLocationPermission := false;
    var permissionsWontRequest: set<string> := {};
    if ACCESS_BACKGROUND_LOCATION in permissionSet {
      if osVersion >= 30 && targetSdkVersion >= 30 {
        requireBackgroundLocationPermission := true;
        permissionSet := permissionSet - {ACCESS_BACKGROUND_LOCATION};
      } else if osVersion < 29 {
        permissionSet := permissionSet - {ACCESS_BACKGROUND_LOCATION};
        permissionsWontRequest := permissionsWontRequest + {ACCESS_BACKGROUND_LOCATION};
      }
    }
    c := Collected(permissionSet, permissionsWontRequest, requireBackgroundLocationPermission);
  }

  /** `permissions(List)` of the first chained generation. */
  method PermissionsChained(permissions: seq<string>, osVersion: int, targetSdkVersion: int) returns (c: Collected)
    ensures c == Collect(true, permissions, osVersion, targetSdkVersion)
  {
    var permissionSet := Names(permissions);
    var requireBackgroundLocationPermission := false;
    var permissionsWontRequest: set<string> := {};
    if ACCESS_BACKGROUND_LOCATION in permissionSet {
      if osVersion >= 29 && targetSdkVersion == CUR_DEVELOPMENT {
        requireBackgroundLocationPermission := true;
        permissionSet := permissionSet - {ACCESS_BACKGROUND_LOCATION};
      } else if osVersion < 29 {
        permissionSet := permissionSet - {ACCESS_BACKGROUND_LOCATION};
        permissionsWontRequest := permissionsWontRequest + {ACCESS_BACKGROUND_LOCATION};
      }
    }
    c := Collected(permissionSet, permissionsWontRequest, requireBackgroundLocationPermission);
  }
}
