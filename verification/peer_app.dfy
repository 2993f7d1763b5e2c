/** An installed app, packages/daemon/src/store/repositories/app/PeerApp.js:
    an immutable record whose setters return updated copies, and the
    permission resolution that opens a session for one of its users. */
module PeerApps {
  import opened Js
  import opened Grants
  import opened Requirements
  import opened AppPermissions
  import opened Manifests
  import opened Users

  /** `PeerApp`; `installationState` is one of `'pending'`, `'hash_lookup'`,
      `'hash_not_found'`, `'downloading'`, `'download_error'`, `'ready'`. */
  datatype PeerApp = PeerApp(id: JsValue, installationState: JsValue, manifest: Manifest, users: UsersSettings)

  /** The plain object given to `PeerApp.fromJSON`; its `users` part is taken
      as already decoded. */
  datatype PeerAppData = PeerAppData(id: JsValue, installationState: JsValue, manifest: JsValue, users: UsersSettings)

  /** `PeerApp.fromJSON(data)`: the manifest is normalised, `id` defaults to
      `''` and `installationState` to `'pending'`. */
  function FromJSON(data: PeerAppData): (r: Result<PeerApp, JsError>)
    ensures r.Success? <==> ManifestOf(data.manifest).Success?
    ensures r.Success? ==>
      && r.value.id == FieldOr(data.id, Str(""))
      && r.value.installationState == FieldOr(data.installationState, Str("pending"))
      && Success(r.value.manifest) == ManifestOf(data.manifest)
      && r.value.users == data.users
  {
    var manifest :- ManifestOf(data.manifest);
    Success(PeerApp(FieldOr(data.id, Str("")), FieldOr(data.installationState, Str("pending")), manifest, data.users))
  }

  /** The update keeps the app's identity: same `id`, same manifest. */
  ghost predicate SameApp(app: PeerApp, r: PeerApp) {
    r.id == app.id && r.manifest == app.manifest
  }

  /** `setInstallationState(state)`: the record stores `state`, and a
      stored `undefined` reads as the default `'pending'`. */
  function SetInstallationState(app: PeerApp, state: JsValue): (r: PeerApp)
    ensures SameApp(app, r) && r.users == app.users
    ensures state != Undefined ==> r.installationState == state
    ensures state == Undefined ==> r.installationState == Str("pending")
  {
    app.(installationState := FieldOr(state, Str("pending")))
  }

  function SetSettings(app: PeerApp, userID: string, settings: UserSettings): (r: PeerApp)
    ensures SameApp(app, r) && r.installationState == app.installationState
    ensures r.users == Users.SetSettings(app.users, userID, settings)
  {
    app.(users := Users.SetSettings(app.users, userID, settings))
  }

  function SetPermissions(app: PeerApp, userID: string, grants: StrictGrants, checked: Option<bool>): (r: PeerApp)
    ensures SameApp(app, r) && r.installationState == app.installationState
    ensures r.users == Users.SetPermissions(app.users, userID, grants, checked)
  {
    app.(users := Users.SetPermissions(app.users, userID, grants, checked))
  }

  function SetPermission(app: PeerApp, userID: string, key: string, value: PermissionGrant): (r: PeerApp)
    ensures SameApp(app, r) && r.installationState == app.installationState
    ensures r.users == Users.SetPermission(app.users, userID, key, value)
  {
    app.(users := Users.SetPermission(app.users, userID, key, value))
  }

  function SetPermissionsChecked(app: PeerApp, userID: string, checked: bool): (r: PeerApp)
    ensures SameApp(app, r) && r.installationState == app.installationState
    ensures r.users == Users.SetPermissionsChecked(app.users, userID, checked)
  {
    app.(users := Users.SetPermissionsChecked(app.users, userID, checked))
  }

  function SetDefaultEthAccount(app: PeerApp, userID: string, walletID: string, account: string): (r: PeerApp)
    ensures SameApp(app, r) && r.installationState == app.installationState
    ensures r.users == Users.SetDefaultEthAccount(app.users, userID, walletID, account)
  {
    app.(users := Users.SetDefaultEthAccount(app.users, userID, walletID, account))
  }

  function RemoveUser(app: PeerApp, userID: string): (r: PeerApp)
    ensures SameApp(app, r) && r.installationState == app.installationState
    ensures r.users == Users.RemoveUser(app.users, userID)
  {
    app.(users := Users.RemoveUser(app.users, userID))
  }

  /** `hasCheckedPermissions`: vacuously true when the manifest has nothing
      to grant, otherwise the user's stored confirmation (false when unknown). */
  predicate HasCheckedPermissions(app: PeerApp, userID: string, lib: PermissionsLib)
  {
    !lib.havePermissionsToGrant(ManifestPermissionsToJSON(app.manifest.permissions))
    || GetPermissionsChecked(app.users, userID)
  }

  /** Whether the manifest asks for `key`, as required or as optional. */
  predicate Requested(perms: ManifestPermissions, key: string) {
    Truthy(RequirementsGet(perms.required, key)) || Truthy(RequirementsGet(perms.optional, key))
  }

  /** The app side of a session: the required set, with its `WEB_REQUEST`
      list turned into a grant of those hosts. */
  function AppPermissionsOf(required: PermissionRequirements): (r: SessionAppPermissions)
    ensures r.blockchainSend == required.blockchainSend
    ensures r.webRequest.granted == required.webRequest && r.webRequest.denied == []
  {
    SessionAppPermissions(required.blockchainSend, CreateWebRequestGrant(required.webRequest))
  }

  /** The user's stored grants, or an empty web-request grant alone. */
  function StoredOrDefaultGrants(users: UsersSettings, userID: string): (r: StrictGrants)
    ensures GetPermissions(users, userID).Some? ==> r == GetPermissions(users, userID).value
    ensures GetPermissions(users, userID).None? ==> r == map[WEB_REQUEST := WebRequestGrant(EmptyWebRequestGrants)]
  {
    match GetPermissions(users, userID)
    case Some(g) => g
    case None => map[WEB_REQUEST := WebRequestGrant(CreateWebRequestGrant([]))]
  }

  /** The user side of a session: every boolean key the manifest does not
      request is denied; every other grant is the stored one. */
  ghost predicate ResolvedGrants(user: StrictGrants, stored: StrictGrants, perms: ManifestPermissions, keys: seq<string>) {
    && user.Keys == stored.Keys + (set k | k in keys && !Requested(perms, k))
    && (forall k :: k in keys && !Requested(perms, k) ==> k in user && user[k] == BoolGrant(false))
    && (forall k :: k in stored && !(k in keys && !Requested(perms, k)) ==> k in user && user[k] == stored[k])
  }

  datatype SessionData = SessionData(appID: JsValue, userID: string, permissions: PermissionsDetails)

  datatype SessionError = PermissionsNotChecked | Thrown(error: JsError)

  function SessionErrorMessage(e: SessionError): string {
    match e
    case PermissionsNotChecked => "Permissions need to be checked by user"
    case Thrown(TypeError) => "TypeError"
    case Thrown(RangeError) => "RangeError"
  }

  /** `createSession`: refuses an unchecked user; otherwise returns the
      session of this app and user, with the manifest's required set on the
      app side and the user's grants, denied where the manifest is silent. */
  method CreateSession(app: PeerApp, userID: string, lib: PermissionsLib) returns (r: Result<SessionData, SessionError>)
    ensures r.Failure? <==> !HasCheckedPermissions(app, userID, lib)
    ensures r.Failure? ==> r.error == PermissionsNotChecked
    ensures r.Success? ==> r.value.appID == app.id && r.value.userID == userID
    ensures r.Success? ==> r.value.permissions.app == AppPermissionsOf(app.manifest.permissions.required)
    ensures r.Success? ==>
      ResolvedGrants(r.value.permissions.user, StoredOrDefaultGrants(app.users, userID),
                     app.manifest.permissions, lib.booleanKeys)
  {
    if !HasCheckedPermissions(app, userID, lib) {
      return Failure(PermissionsNotChecked);
    }
    var perms := app.manifest.permissions;
    var appPermissions := AppPermissionsOf(perms.required);
    var stored := StoredOrDefaultGrants(app.users, userID);
    var userPermissions := stored;
    var keys := lib.booleanKeys;
    for i := 0 to |keys|
      invariant ResolvedGrants(userPermissions, stored, perms, keys[..i])
    {
      var key := keys[i];
      if !Requested(perms, key) {
        userPermissions := userPermissions[key := BoolGrant(false)];
      }
      assert keys[..i + 1] == keys[..i] + [key];
    }
    assert keys[..|keys|] == keys;
    r := Success(SessionData(app.id, userID, MergeGrantsToDetails(appPermissions, userPermissions)));
  }

  /** Confirming the check opens the session, whatever the grants are; an
      unconfirmed user of an app with something to grant is refused. */
  lemma CheckingUnlocksSession(app: PeerApp, userID: string, lib: PermissionsLib)
    ensures HasCheckedPermissions(SetPermissionsChecked(app, userID, true), userID, lib)
    ensures lib.havePermissionsToGrant(ManifestPermissionsToJSON(app.manifest.permissions)) ==>
      !HasCheckedPermissions(SetPermissionsChecked(app, userID, false), userID, lib)
  {
  }

  /** The grants the user reads back are the ones a session starts from. */
  lemma SessionUsesStoredGrants(app: PeerApp, userID: string, grants: StrictGrants, checked: Option<bool>)
    ensures StoredOrDefaultGrants(SetPermissions(app, userID, grants, checked).users, userID) == grants
  {
  }

  /** A session for a manifest that requires only `BLOCKCHAIN_SEND`: an
      unrelated boolean capability the user granted is denied, and the
      required one keeps the user's grant. */
  method DenialBySilence() returns (denied: Option<PermissionGrant>, kept: Option<PermissionGrant>)
    ensures denied == Some(BoolGrant(false))
    ensures kept == Some(BoolGrant(true))
  {
    var required := PermissionRequirements(Bool(true), []);
    var manifest := Manifest(Str("app"), ManifestAuthor(Str("")), Str(""), Str(""), Str(""),
                             ManifestPermissions(required, DefaultRequirements));
    var grants := map[BLOCKCHAIN_SEND := BoolGrant(true), "FOO" := BoolGrant(true)];
    var app := PeerApp(Str("app"), Str("ready"), manifest, UsersSettings(map[]));
    app := SetPermissions(app, "user", grants, Some(true));
    var lib := PermissionsLib(_ => true, [BLOCKCHAIN_SEND, "FOO"]);
    var r := CreateSession(app, "user", lib);
    assert Requested(manifest.permissions, BLOCKCHAIN_SEND);
    assert !Requested(manifest.permissions, "FOO");
    assert r.Success?;
    denied := Some(r.value.permissions.user["FOO"]);
    kept := Some(r.value.permissions.user[BLOCKCHAIN_SEND]);
  }

  // ---------------------------------------------------------------------
  // The session code as written.

  /** `this.manifest.permissions.required.toJSON()` as written: the record
      built at Manifest.js:26 has no `required` key. */
  function RequiredPermissionsAsWritten(permissions: PermissionRequirements): Result<map<string, JsValue>, JsError> {
    var required := RequirementsGet(permissions, "required");
    if Nullish(required) then Failure(TypeError)
    else Success(if required.Obj? then required.props else map[])
  }

  /** As written, every session that passes the check throws a TypeError. */
  lemma CreateSessionThrowsAsWritten(data: JsValue)
    requires ManifestPermissionsAsWritten(data).Success?
    ensures RequiredPermissionsAsWritten(ManifestPermissionsAsWritten(data).value) == Failure(TypeError)
  {
  }

  /** `{...required.toJSON(), ...optional.toJSON()}[key]` as written. */
  function MergedRequirementAsWritten(perms: ManifestPermissions, key: string): JsValue {
    Prop(Obj(RequirementsToJSON(perms.required) + RequirementsToJSON(perms.optional)), key)
  }

  /** As written the optional set hides the required one entirely, because
      `toJSON` emits both keys even when undefined. */
  lemma OptionalHidesRequiredAsWritten(perms: ManifestPermissions, key: string)
    ensures MergedRequirementAsWritten(perms, key) == RequirementsGet(perms.optional, key)
  {
  }

  /** The input that shows it: `BLOCKCHAIN_SEND` required, optional set
      empty; the merged value is falsy, so the required key would be denied. */
  lemma RequiredSendDeniedAsWritten()
    ensures var perms := ManifestPermissions(PermissionRequirements(Bool(true), []), DefaultRequirements);
      !Truthy(MergedRequirementAsWritten(perms, BLOCKCHAIN_SEND)) && Requested(perms, BLOCKCHAIN_SEND)
  {
  }
}
