/** The grant records of packages/daemon/src/store/repositories/app/PermissionsGrants.js:
    Immutable records whose constructors normalise a plain object. */
module Grants {
  import opened Js

  /** `WebRequestGrants`: the hosts an app was allowed and refused. */
  datatype WebRequestGrants = WebRequestGrants(denied: seq<JsValue>, granted: seq<JsValue>)

  const EmptyWebRequestGrants := WebRequestGrants([], [])

  /** `new WebRequestGrants(data)`: both fields become lists; the argument
      itself is dereferenced, so `undefined` or `null` throws. */
  function WebRequestGrantsOf(data: JsValue): (r: Result<WebRequestGrants, JsError>)
    ensures Nullish(data) ==> r == Failure(TypeError)
    ensures r.Success? <==>
      !Nullish(data) && ToList(Prop(data, "denied")).Success? && ToList(Prop(data, "granted")).Success?
    ensures r.Success? && Prop(data, "denied").Arr? ==> r.value.denied == Prop(data, "denied").items
    ensures r.Success? && Prop(data, "granted").Arr? ==> r.value.granted == Prop(data, "granted").items
    ensures r.Success? && Nullish(Prop(data, "denied")) ==> r.value.denied == []
    ensures r.Success? && Nullish(Prop(data, "granted")) ==> r.value.granted == []
  {
    var _ :- GetProp(data, "denied");
    var denied :- ToList(Prop(data, "denied"));
    var granted :- ToList(Prop(data, "granted"));
    Success(WebRequestGrants(denied, granted))
  }

  /** `PermissionGrants`: the record has exactly the keys `BLOCKCHAIN_SEND`
      and `WEB_REQUEST`. */
  datatype PermissionGrants = PermissionGrants(blockchainSend: JsValue, webRequest: WebRequestGrants)

  /** `new PermissionGrants(data)`: `BLOCKCHAIN_SEND` is kept as given, even
      when absent; `WEB_REQUEST` is always wrapped in a `WebRequestGrants`,
      which throws when the field is absent. */
  function PermissionGrantsOf(data: JsValue): (r: Result<PermissionGrants, JsError>)
    ensures Nullish(data) ==> r == Failure(TypeError)
    ensures r.Success? <==> !Nullish(data) && WebRequestGrantsOf(Prop(data, "WEB_REQUEST")).Success?
    ensures r.Success? ==> r.value.blockchainSend == Prop(data, "BLOCKCHAIN_SEND")
    ensures r.Success? ==> Success(r.value.webRequest) == WebRequestGrantsOf(Prop(data, "WEB_REQUEST"))
  {
    var blockchainSend :- GetProp(data, "BLOCKCHAIN_SEND");
    var webRequest :- WebRequestGrantsOf(Prop(data, "WEB_REQUEST"));
    Success(PermissionGrants(blockchainSend, webRequest))
  }

  /** Keys other than `BLOCKCHAIN_SEND` and `WEB_REQUEST` do not reach the record. */
  lemma GrantsIgnoreOtherKeys(m1: map<string, JsValue>, m2: map<string, JsValue>)
    requires Prop(Obj(m1), "BLOCKCHAIN_SEND") == Prop(Obj(m2), "BLOCKCHAIN_SEND")
    requires Prop(Obj(m1), "WEB_REQUEST") == Prop(Obj(m2), "WEB_REQUEST")
    ensures PermissionGrantsOf(Obj(m1)) == PermissionGrantsOf(Obj(m2))
  {
  }
}
