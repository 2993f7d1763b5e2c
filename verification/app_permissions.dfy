/** The part of the external `@mainframe/app-permissions` package that the
    daemon calls. Its source is not part of this model: the library's
    predicate and key list are parameters (`PermissionsLib`), and its two
    constructors are given the obvious definitions. */
module AppPermissions {
  import opened Js
  import opened Grants

  const BLOCKCHAIN_SEND := "BLOCKCHAIN_SEND"
  const WEB_REQUEST := "WEB_REQUEST"

  /** A `PermissionGrant`: a yes/no capability or the web-request lists. */
  datatype PermissionGrant = BoolGrant(allowed: bool) | WebRequestGrant(grants: WebRequestGrants)

  /** `StrictPermissionsGrants`: a plain object from permission key to grant. */
  type StrictGrants = map<string, PermissionGrant>

  /** The library's `havePermissionsToGrant` (applied to a manifest's
      `permissions.toJSON()`) and `PERMISSION_KEYS_BOOLEAN`. */
  datatype PermissionsLib = PermissionsLib(havePermissionsToGrant: JsValue -> bool, booleanKeys: seq<string>)

  /** `createWebRequestGrant(granted)`: the given hosts granted, none denied. */
  function CreateWebRequestGrant(granted: seq<JsValue>): WebRequestGrants {
    WebRequestGrants([], granted)
  }

  /** The app side of a session: `{...required.toJSON(), WEB_REQUEST: grant}`. */
  datatype SessionAppPermissions = SessionAppPermissions(blockchainSend: JsValue, webRequest: WebRequestGrants)

  /** `mergeGrantsToDetails(app, user)`: the library's merge is not modelled;
      the details carry both of its inputs. */
  datatype PermissionsDetails = PermissionsDetails(app: SessionAppPermissions, user: StrictGrants)

  function MergeGrantsToDetails(app: SessionAppPermissions, user: StrictGrants): PermissionsDetails {
    PermissionsDetails(app, user)
  }
}
