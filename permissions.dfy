/** The runtime-permission gate shared by fragments/BaseFragment.kt and
    fragments/StoreBaseFragment.kt: "all granted", the lifecycle check and the
    permission-result rule. */
module Permissions {

  /** The Android runtime permissions the fragments ask for. */
  datatype Permission = Camera | RecordAudio | AccessMediaLocation

  /** Build.VERSION_CODES.Q. */
  const SdkQ: int := 29

  /** What a lifecycle check does: run `onPermissionGranted`, or launch the request for
      the listed permissions. */
  datatype GateAction = RunOnPermissionGranted | RequestPermissions(requested: seq<Permission>)

  /** What the permission-result callback does: run `onPermissionGranted`, show the
      "no permissions" snackbar (whose OK button may finish the activity), or nothing when
      no view is attached. */
  datatype ResultAction =
    | GrantedCallback
    | NoPermissionsSnackbar(finishOnOk: bool)
    | NoView

  /** `allPermissionsGranted`: every listed permission is currently granted. */
  function AllGranted(permissions: seq<Permission>, granted: set<Permission>): (all: bool)
    ensures all <==> (set p | p in permissions) <= granted
  {
    forall p :: p in permissions ==> p in granted
  }

  /** `onViewCreated` / `onResume`: run the grant callback when everything is granted,
      otherwise request the whole list. */
  function Gate(permissions: seq<Permission>, granted: set<Permission>): (a: GateAction)
    ensures a == RunOnPermissionGranted <==> AllGranted(permissions, granted)
    ensures a.RequestPermissions? ==> a.requested == permissions
  {
    if AllGranted(permissions, granted) then RunOnPermissionGranted
    else RequestPermissions(permissions)
  }

  /** The callback registered with RequestMultiplePermissions: it receives one boolean
      per requested permission and grants only when all of them are true. `finishOnOk`
      is true for BaseFragment, whose snackbar finishes the activity on OK, and false
      for StoreBaseFragment, whose snackbar has no action. */
  function OnPermissionsResult(results: map<Permission, bool>, viewAttached: bool, finishOnOk: bool)
    : (a: ResultAction)
    ensures a == GrantedCallback <==> forall p :: p in results ==> results[p]
    ensures !(forall p :: p in results ==> results[p]) ==> (a.NoPermissionsSnackbar? <==> viewAttached)
    ensures a.NoPermissionsSnackbar? ==> a.finishOnOk == finishOnOk
  {
    if forall p :: p in results ==> results[p] then GrantedCallback
    else if viewAttached then NoPermissionsSnackbar(finishOnOk)
    else NoView
  }

  /** A single refusal blocks the grant callback. */
  lemma OneRefusalBlocks(results: map<Permission, bool>, p: Permission, viewAttached: bool, finishOnOk: bool)
    requires p in results && !results[p]
    ensures OnPermissionsResult(results, viewAttached, finishOnOk) != GrantedCallback
  {
  }

  /** An empty result map (a request that returned no answers) counts as all granted,
      as Kotlin's `all` is true of an empty collection. */
  lemma EmptyResultGrants(viewAttached: bool, finishOnOk: bool)
    ensures OnPermissionsResult(map[], viewAttached, finishOnOk) == GrantedCallback
  {
  }
}
