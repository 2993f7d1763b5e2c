/** The per-user settings of an app,
    packages/daemon/src/store/repositories/app/UsersSettings.js: an
    Immutable map from user id to a `UserSettings` record, with persistent
    get/set/remove operations. The record's fields use one spelling
    throughout (`permissionsChecked`, `permissionsGrants`); the source's
    mixed spellings are modelled separately below, as written. */
module Users {
  import opened Js
  import opened Grants
  import opened AppPermissions

  /** The grant record a new `UserSettings` starts with: no blockchain grant
      and empty web-request lists. */
  const DefaultPermissionGrants := PermissionGrants(Undefined, EmptyWebRequestGrants)

  /** A `PermissionGrants` record read as a plain grant object. */
  function GrantsOfRecord(g: PermissionGrants): (r: StrictGrants)
    ensures WEB_REQUEST in r && r[WEB_REQUEST] == WebRequestGrant(g.webRequest)
  {
    var base: StrictGrants := if g.blockchainSend.Bool? then map[BLOCKCHAIN_SEND := BoolGrant(g.blockchainSend.b)] else map[];
    base[WEB_REQUEST := WebRequestGrant(g.webRequest)]
  }

  datatype UserSettings = UserSettings(
    defaultEthAccount: Option<string>,
    permissionsChecked: bool,
    permissionsGrants: StrictGrants)

  /** `new UserSettings()`. */
  const DefaultUserSettings := UserSettings(None, false, GrantsOfRecord(DefaultPermissionGrants))

  datatype UsersSettings = UsersSettings(records: map<string, UserSettings>)

  /** Every other user's entry is as it was, and no user other than `userID` appears or disappears. */
  ghost predicate OnlyUserChanged(s: UsersSettings, r: UsersSettings, userID: string) {
    && r.records.Keys == s.records.Keys + {userID}
    && forall v :: v in s.records && v != userID ==> r.records[v] == s.records[v]
  }

  /** The users whose stored settings equal `x`. */
  ghost function UsersWith(records: map<string, UserSettings>, x: UserSettings): set<string> {
    set u | u in records && records[u] == x
  }

  /** Taking one user out removes it, and only it, from the users sharing its settings. */
  lemma UsersWithSplit(records: map<string, UserSettings>, u: string, x: UserSettings)
    requires u in records
    ensures |UsersWith(records, x)| == |UsersWith(records - {u}, x)| + (if records[u] == x then 1 else 0)
  {
    var rest := records - {u};
    if records[u] == x {
      assert UsersWith(records, x) == UsersWith(rest, x) + {u};
      assert u !in UsersWith(rest, x);
    } else {
      assert UsersWith(records, x) == UsersWith(rest, x);
    }
  }

  /** Adding one user's settings to the entries of the others gives one
      entry per user again. */
  lemma CountsStep(records: map<string, UserSettings>, u: string, tail: multiset<UserSettings>)
    requires u in records
    requires forall x :: tail[x] == |UsersWith(records - {u}, x)|
    ensures forall x :: (multiset{records[u]} + tail)[x] == |UsersWith(records, x)|
  {
    forall x ensures (multiset{records[u]} + tail)[x] == |UsersWith(records, x)| {
      UsersWithSplit(records, u, x);
    }
  }

  /** A multiset with one entry per user holds every user's settings and nothing else. */
  lemma CountsGiveMembership(records: map<string, UserSettings>, r: multiset<UserSettings>)
    requires forall x :: r[x] == |UsersWith(records, x)|
    ensures forall u :: u in records ==> records[u] in r
    ensures forall x :: x in r ==> exists u :: u in records && records[u] == x
  {
    forall u | u in records ensures records[u] in r {
      assert u in UsersWith(records, records[u]);
    }
    forall x | x in r ensures exists u :: u in records && records[u] == x {
      assert UsersWith(records, x) != {};
      var u :| u in UsersWith(records, x);
    }
  }

  /** `getIDs()` returns `records.toList()`: the stored settings, one entry
      per user (Immutable's map order is unspecified, hence a multiset). */
  ghost function GetIDs(s: UsersSettings): (r: multiset<UserSettings>)
    ensures |r| == |s.records|
    ensures forall u :: u in s.records ==> s.records[u] in r
    ensures forall x :: x in r ==> exists u :: u in s.records && s.records[u] == x
    ensures forall x :: r[x] == |UsersWith(s.records, x)|
    decreases |s.records|
  {
    if s.records == map[] then
      assert forall x :: UsersWith(s.records, x) == {};
      multiset{}
    else
      var u :| u in s.records;
      var rest := s.records - {u};
      assert rest.Keys == s.records.Keys - {u};
      var tail := GetIDs(UsersSettings(rest));
      CountsStep(s.records, u, tail);
      CountsGiveMembership(s.records, multiset{s.records[u]} + tail);
      multiset{s.records[u]} + tail
  }

  /** `getSettings`: the stored record, or a default one for an unknown user. */
  function GetSettings(s: UsersSettings, userID: string): (r: UserSettings)
    ensures userID in s.records ==> r == s.records[userID]
    ensures userID !in s.records ==> r == DefaultUserSettings
  {
    if userID in s.records then s.records[userID] else DefaultUserSettings
  }

  /** `setSettings`: replaces the user's record. */
  function SetSettings(s: UsersSettings, userID: string, settings: UserSettings): (r: UsersSettings)
    ensures OnlyUserChanged(s, r, userID)
    ensures r.records[userID] == settings
  {
    UsersSettings(s.records[userID := settings])
  }

  /** `getPermissions`: the stored grants, nothing for an unknown user. */
  function GetPermissions(s: UsersSettings, userID: string): (r: Option<StrictGrants>)
    ensures r.None? <==> userID !in s.records
    ensures r.Some? ==> r.value == s.records[userID].permissionsGrants
  {
    if userID in s.records then Some(s.records[userID].permissionsGrants) else None
  }

  /** `setPermissions`: starts from a default record when there is none,
      replaces the grants, and sets the checked flag only when one is given. */
  function SetPermissions(s: UsersSettings, userID: string, grants: StrictGrants, checked: Option<bool>): (r: UsersSettings)
    ensures OnlyUserChanged(s, r, userID)
    ensures r.records[userID].permissionsGrants == grants
    ensures r.records[userID].defaultEthAccount == GetSettings(s, userID).defaultEthAccount
    ensures checked.Some? ==> r.records[userID].permissionsChecked == checked.value
    ensures checked.None? ==> r.records[userID].permissionsChecked == GetSettings(s, userID).permissionsChecked
  {
    var old_ := GetSettings(s, userID);
    var flag := if checked.Some? then checked.value else old_.permissionsChecked;
    UsersSettings(s.records[userID := old_.(permissionsGrants := grants, permissionsChecked := flag)])
  }

  /** `getPermission`: one stored grant, nothing when the user or the key is missing. */
  function GetPermission(s: UsersSettings, userID: string, key: string): (r: Option<PermissionGrant>)
    ensures r.Some? <==> userID in s.records && key in s.records[userID].permissionsGrants
    ensures r.Some? ==> r.value == s.records[userID].permissionsGrants[key]
  {
    if userID in s.records && key in s.records[userID].permissionsGrants
    then Some(s.records[userID].permissionsGrants[key])
    else None
  }

  /** `setPermission`: one grant of one user. */
  function SetPermission(s: UsersSettings, userID: string, key: string, value: PermissionGrant): (r: UsersSettings)
    ensures OnlyUserChanged(s, r, userID)
    ensures r.records[userID].permissionsGrants == GetSettings(s, userID).permissionsGrants[key := value]
    ensures r.records[userID].permissionsChecked == GetSettings(s, userID).permissionsChecked
    ensures r.records[userID].defaultEthAccount == GetSettings(s, userID).defaultEthAccount
  {
    var old_ := GetSettings(s, userID);
    UsersSettings(s.records[userID := old_.(permissionsGrants := old_.permissionsGrants[key := value])])
  }

  /** `getPermissionsChecked`: false for an unknown user. */
  function GetPermissionsChecked(s: UsersSettings, userID: string): (r: bool)
    ensures userID !in s.records ==> !r
    ensures userID in s.records ==> r == s.records[userID].permissionsChecked
  {
    GetSettings(s, userID).permissionsChecked
  }

  /** `setPermissionsChecked`. */
  function SetPermissionsChecked(s: UsersSettings, userID: string, checked: bool): (r: UsersSettings)
    ensures OnlyUserChanged(s, r, userID)
    ensures r.records[userID] == GetSettings(s, userID).(permissionsChecked := checked)
  {
    UsersSettings(s.records[userID := GetSettings(s, userID).(permissionsChecked := checked)])
  }

  /** `getDefaultEthAccount`. */
  function GetDefaultEthAccount(s: UsersSettings, userID: string): (r: Option<string>)
    ensures userID !in s.records ==> r.None?
    ensures userID in s.records ==> r == s.records[userID].defaultEthAccount
  {
    GetSettings(s, userID).defaultEthAccount
  }

  /** `setDefaultEthAccount`: `walletID` is accepted and ignored. */
  function SetDefaultEthAccount(s: UsersSettings, userID: string, walletID: string, account: string): (r: UsersSettings)
    ensures OnlyUserChanged(s, r, userID)
    ensures r.records[userID] == GetSettings(s, userID).(defaultEthAccount := Some(account))
  {
    UsersSettings(s.records[userID := GetSettings(s, userID).(defaultEthAccount := Some(account))])
  }

  /** `removeUser`: deletes exactly that user's entry. */
  function RemoveUser(s: UsersSettings, userID: string): (r: UsersSettings)
    ensures r.records.Keys == s.records.Keys - {userID}
    ensures forall v :: v in r.records ==> r.records[v] == s.records[v]
  {
    UsersSettings(s.records - {userID})
  }

  /** Each getter reads back what its setter stored. */
  lemma GetAfterSet(s: UsersSettings, userID: string, key: string, grant: PermissionGrant,
                    grants: StrictGrants, checked: bool, walletID: string, account: string)
    ensures GetPermission(SetPermission(s, userID, key, grant), userID, key) == Some(grant)
    ensures GetPermissions(SetPermissions(s, userID, grants, Some(checked)), userID) == Some(grants)
    ensures GetPermissionsChecked(SetPermissions(s, userID, grants, Some(checked)), userID) == checked
    ensures GetPermissionsChecked(SetPermissions(s, userID, grants, None), userID) == GetPermissionsChecked(s, userID)
    ensures GetPermissionsChecked(SetPermissionsChecked(s, userID, checked), userID) == checked
    ensures GetDefaultEthAccount(SetDefaultEthAccount(s, userID, walletID, account), userID) == Some(account)
  {
  }

  /** The wallet id plays no part in `setDefaultEthAccount`. */
  lemma DefaultEthAccountIgnoresWallet(s: UsersSettings, userID: string, w1: string, w2: string, account: string)
    ensures SetDefaultEthAccount(s, userID, w1, account) == SetDefaultEthAccount(s, userID, w2, account)
  {
  }

  /** The setters leave every other user's settings as they were. */
  lemma SettersAreLocal(s: UsersSettings, userID: string, other: string, key: string, grant: PermissionGrant,
                        grants: StrictGrants, checked: Option<bool>, flag: bool, walletID: string, account: string)
    requires other != userID
    ensures GetSettings(SetPermission(s, userID, key, grant), other) == GetSettings(s, other)
    ensures GetSettings(SetPermissions(s, userID, grants, checked), other) == GetSettings(s, other)
    ensures GetSettings(SetPermissionsChecked(s, userID, flag), other) == GetSettings(s, other)
    ensures GetSettings(SetDefaultEthAccount(s, userID, walletID, account), other) == GetSettings(s, other)
    ensures GetSettings(RemoveUser(s, userID), other) == GetSettings(s, other)
  {
  }

  /** After `removeUser` the user reads as unknown again. */
  lemma RemoveUserRestoresDefault(s: UsersSettings, userID: string)
    ensures GetSettings(RemoveUser(s, userID), userID) == DefaultUserSettings
    ensures GetPermissions(RemoveUser(s, userID), userID).None?
    ensures !GetPermissionsChecked(RemoveUser(s, userID), userID)
  {
  }

  // ---------------------------------------------------------------------
  // The record as the source declares it, and the accesses that miss it.

  /** The default of `permissionGrants` as written is `new AppPermissionsGrants()`:
      the constructor dereferences its missing argument, and an empty object
      fails too because `WEB_REQUEST` is then dereferenced. */
  lemma DefaultGrantsAsWritten()
    ensures PermissionGrantsOf(Undefined) == Failure(TypeError)
    ensures PermissionGrantsOf(Obj(map[])) == Failure(TypeError)
  {
    assert Prop(Obj(map[]), "WEB_REQUEST") == Undefined;
  }

  /** The default `DefaultPermissionGrants` is the record built from an
      object whose `WEB_REQUEST` is present and empty. */
  lemma DefaultGrantsFromEmptyWebRequest()
    ensures PermissionGrantsOf(Obj(map["WEB_REQUEST" := Obj(map[])])) == Success(DefaultPermissionGrants)
  {
    var data := Obj(map["WEB_REQUEST" := Obj(map[])]);
    assert Prop(data, "BLOCKCHAIN_SEND") == Undefined;
    assert WebRequestGrantsOf(Prop(data, "WEB_REQUEST")) == Success(EmptyWebRequestGrants);
  }

  /** `UserSettings` as declared at lines 20-24: keys `defaultEthAccount`,
      `permissionChecked` and `permissionGrants`. */
  datatype UserRecordAsWritten = UserRecordAsWritten(defaultEthAccount: JsValue, permissionChecked: JsValue, permissionGrants: JsValue)

  const DefaultUserRecordAsWritten := UserRecordAsWritten(Undefined, Bool(false), Undefined)

  /** `record.get(key, notSetValue)`: an undeclared key gives `notSetValue`. */
  function RecordGetAsWritten(r: UserRecordAsWritten, key: string, notSetValue: JsValue): JsValue {
    if key == "defaultEthAccount" then r.defaultEthAccount
    else if key == "permissionChecked" then r.permissionChecked
    else if key == "permissionGrants" then r.permissionGrants
    else notSetValue
  }

  /** `record.set(key, value)`: an undeclared key leaves the record as it is. */
  function RecordSetAsWritten(r: UserRecordAsWritten, key: string, value: JsValue): UserRecordAsWritten {
    if key == "defaultEthAccount" then r.(defaultEthAccount := value)
    else if key == "permissionChecked" then r.(permissionChecked := value)
    else if key == "permissionGrants" then r.(permissionGrants := value)
    else r
  }

  /** `setPermissions` as written: it sets `permissionsGrants` and `permissionChecked`. */
  function SetPermissionsAsWritten(records: map<string, UserRecordAsWritten>, userID: string,
                                   grants: JsValue, checked: Option<bool>): map<string, UserRecordAsWritten>
  {
    var s := if userID in records then records[userID] else DefaultUserRecordAsWritten;
    var s := RecordSetAsWritten(s, "permissionsGrants", grants);
    var s := if checked.Some? then RecordSetAsWritten(s, "permissionChecked", Bool(checked.value)) else s;
    records[userID := s]
  }

  /** `getPermissionsChecked` as written: it reads `permissionsChecked`, default false. */
  function GetPermissionsCheckedAsWritten(records: map<string, UserRecordAsWritten>, userID: string): JsValue {
    if userID in records then RecordGetAsWritten(records[userID], "permissionsChecked", Bool(false)) else Bool(false)
  }

  /** `getPermissions` as written: the property `permissionsGrants`, which the record lacks. */
  function GetPermissionsAsWritten(records: map<string, UserRecordAsWritten>, userID: string): JsValue {
    if userID in records then RecordGetAsWritten(records[userID], "permissionsGrants", Undefined) else Undefined
  }

  /** As written, a user who confirms the permission check still reads as
      unchecked, and the grants just stored read as absent. */
  lemma CheckedFlagLostAsWritten(records: map<string, UserRecordAsWritten>, userID: string, grants: JsValue)
    ensures GetPermissionsCheckedAsWritten(SetPermissionsAsWritten(records, userID, grants, Some(true)), userID) == Bool(false)
    ensures GetPermissionsAsWritten(SetPermissionsAsWritten(records, userID, grants, Some(true)), userID) == Undefined
  {
  }

  /** `setSettings` as written: `new UserSettings(settings)` keeps only the
      declared keys, and of an `AppUserSettings` only `defaultEthAccount` is one. */
  function UserRecordOfSettingsAsWritten(settings: UserSettings): UserRecordAsWritten {
    var account := if settings.defaultEthAccount.Some? then Str(settings.defaultEthAccount.value) else Undefined;
    DefaultUserRecordAsWritten.(defaultEthAccount := account)
  }

  /** As written, settings stored with the check confirmed read back unchecked. */
  lemma SetSettingsLosesCheckAsWritten(records: map<string, UserRecordAsWritten>, userID: string, settings: UserSettings)
    requires settings.permissionsChecked
    ensures GetPermissionsCheckedAsWritten(records[userID := UserRecordOfSettingsAsWritten(settings)], userID) == Bool(false)
    ensures RecordGetAsWritten(UserRecordOfSettingsAsWritten(settings), "permissionChecked", Undefined) == Bool(false)
  {
  }

  /** With one spelling, the confirmation and the grants read back. */
  lemma CheckedFlagKept(s: UsersSettings, userID: string, grants: StrictGrants, settings: UserSettings)
    ensures GetPermissionsChecked(SetPermissions(s, userID, grants, Some(true)), userID)
    ensures GetPermissions(SetPermissions(s, userID, grants, Some(true)), userID) == Some(grants)
    ensures GetPermissionsChecked(SetSettings(s, userID, settings), userID) == settings.permissionsChecked
  {
  }
}
