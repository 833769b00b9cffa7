/**
 * `validateFacebookPermissions` of src/utils/facebook-permissions.ts: the set
 * of granted permissions, the ordered list of required permissions that are
 * missing from it, and the boolean verdict. The `me/permissions` Graph call is
 * an input: either it threw, or it produced a body whose `data` may be absent.
 */
module FacebookPermissions {
  import opened Common
  import opened JsErrors

  /** One `{permission, status}` entry of `me/permissions`. */
  datatype PermissionEntry = PermissionEntry(permission: string, status: string)

  /** What the abstract `fetchFromGraph('me/permissions', token)` call gave. */
  datatype PermissionsFetch = FetchThrew(error: Thrown) | Fetched(data: Option<seq<PermissionEntry>>)

  /** `new Set(data.filter(p => p.status === 'granted').map(p => p.permission))`. */
  function GrantedPermissions(entries: seq<PermissionEntry>): (granted: set<string>)
    ensures forall p :: p in granted <==>
      exists i :: 0 <= i < |entries| && entries[i].status == "granted" && entries[i].permission == p
  {
    if entries == [] then {}
    else
      var rest := GrantedPermissions(entries[1..]);
      assert forall i :: 1 <= i < |entries| ==> entries[i] == entries[1..][i - 1];
      if entries[0].status == "granted" then {entries[0].permission} + rest else rest
  }

  /** An entry that is not `granted` never adds to the granted set. */
  lemma DeclinedEntriesNeverCount(entries: seq<PermissionEntry>, e: PermissionEntry)
    requires e.status != "granted"
    ensures GrantedPermissions(entries + [e]) == GrantedPermissions(entries)
  {
    var both := entries + [e];
    forall p | p in GrantedPermissions(both) ensures p in GrantedPermissions(entries) {
      var i :| 0 <= i < |both| && both[i].status == "granted" && both[i].permission == p;
      assert entries[i] == both[i];
    }
    forall p | p in GrantedPermissions(entries) ensures p in GrantedPermissions(both) {
      var i :| 0 <= i < |entries| && entries[i].status == "granted" && entries[i].permission == p;
      assert both[i] == entries[i];
    }
  }

  /** `requiredPermissions.filter(p => !granted.has(p))`. */
  function MissingPermissions(required: seq<string>, granted: set<string>): (missing: seq<string>)
    ensures |missing| <= |required|
    ensures forall i :: 0 <= i < |missing| ==> missing[i] in required && missing[i] !in granted
  {
    if required == [] then []
    else
      var rest := MissingPermissions(required[1..], granted);
      if required[0] in granted then rest else [required[0]] + rest
  }

  /** A permission is missing exactly when it is required and not granted; nothing is missing exactly when all are granted. */
  lemma {:induction false} MissingIsExactlyUngranted(required: seq<string>, granted: set<string>)
    ensures forall p :: p in MissingPermissions(required, granted) <==> p in required && p !in granted
    ensures MissingPermissions(required, granted) == [] <==> forall i :: 0 <= i < |required| ==> required[i] in granted
    decreases |required|
  {
    if required != [] {
      MissingIsExactlyUngranted(required[1..], granted);
      assert forall p :: p in required <==> p == required[0] || p in required[1..];
      assert forall i :: 1 <= i < |required| ==> required[i] == required[1..][i - 1];
    }
  }

  /** Filtering a list that starts with `x` decides `x` first, then filters the rest. */
  lemma MissingOfCons(x: string, rest: seq<string>, granted: set<string>)
    ensures MissingPermissions([x] + rest, granted) ==
      (if x in granted then [] else [x]) + MissingPermissions(rest, granted)
  {
    assert ([x] + rest)[1..] == rest;
  }

  /** The missing list keeps the order of the required list: filtering a concatenation filters each part. */
  lemma {:induction false} MissingKeepsOrder(a: seq<string>, b: seq<string>, granted: set<string>)
    ensures MissingPermissions(a + b, granted) == MissingPermissions(a, granted) + MissingPermissions(b, granted)
    decreases |a|
  {
    if a == [] {
      assert a + b == b;
    } else {
      var head: seq<string> := if a[0] in granted then [] else [a[0]];
      assert a == [a[0]] + a[1..];
      assert a + b == [a[0]] + (a[1..] + b);
      MissingOfCons(a[0], a[1..], granted);
      MissingOfCons(a[0], a[1..] + b, granted);
      MissingKeepsOrder(a[1..], b, granted);
      assert head + (MissingPermissions(a[1..], granted) + MissingPermissions(b, granted)) ==
        (head + MissingPermissions(a[1..], granted)) + MissingPermissions(b, granted);
    }
  }

  /**
   * `validateFacebookPermissions`: false when the fetch threw or `data` is
   * absent (the `.filter` on `undefined` throws and the catch returns false);
   * otherwise true iff nothing required is missing.
   */
  function ValidateFacebookPermissions(fetched: PermissionsFetch, required: seq<string>): (ok: bool)
    ensures fetched.FetchThrew? ==> !ok
    ensures fetched.Fetched? && fetched.data.None? ==> !ok
    ensures fetched.Fetched? && fetched.data.Some? ==>
      (ok <==> forall i :: 0 <= i < |required| ==> required[i] in GrantedPermissions(fetched.data.value))
  {
    match fetched
    case FetchThrew(_) => false
    case Fetched(None) => false
    case Fetched(Some(entries)) =>
      MissingIsExactlyUngranted(required, GrantedPermissions(entries));
      |MissingPermissions(required, GrantedPermissions(entries))| == 0
  }

  /** An empty requirement list passes whenever the fetch succeeded with data. */
  lemma NothingRequiredPasses(entries: seq<PermissionEntry>)
    ensures ValidateFacebookPermissions(Fetched(Some(entries)), [])
  {
  }

  /** Granting more permissions never turns a passing check into a failing one. */
  lemma {:induction false} MoreGrantsKeepPassing(required: seq<string>, granted: set<string>, more: set<string>)
    requires granted <= more
    ensures |MissingPermissions(required, more)| <= |MissingPermissions(required, granted)|
    ensures MissingPermissions(required, granted) == [] ==> MissingPermissions(required, more) == []
    decreases |required|
  {
    if required != [] {
      MoreGrantsKeepPassing(required[1..], granted, more);
    }
  }
}
