/** The requirement record of
    packages/daemon/src/store/repositories/app/PermissionsRequirements.js. */
module Requirements {
  import opened Js

  /** `PermissionRequirements`: exactly the keys `BLOCKCHAIN_SEND` and `WEB_REQUEST`. */
  datatype PermissionRequirements = PermissionRequirements(blockchainSend: JsValue, webRequest: seq<JsValue>)

  /** The record's defaults: `BLOCKCHAIN_SEND` undefined, `WEB_REQUEST` an empty list. */
  const DefaultRequirements := PermissionRequirements(Undefined, [])

  /** `new PermissionRequirements(data)`. */
  function PermissionRequirementsOf(data: JsValue): (r: Result<PermissionRequirements, JsError>)
    ensures Nullish(data) ==> r == Failure(TypeError)
    ensures r.Success? <==> !Nullish(data) && ToList(Prop(data, "WEB_REQUEST")).Success?
    ensures r.Success? ==> r.value.blockchainSend == Prop(data, "BLOCKCHAIN_SEND")
    ensures r.Success? && Prop(data, "WEB_REQUEST").Arr? ==> r.value.webRequest == Prop(data, "WEB_REQUEST").items
    ensures r.Success? && Nullish(Prop(data, "WEB_REQUEST")) ==> r.value.webRequest == []
  {
    var blockchainSend :- GetProp(data, "BLOCKCHAIN_SEND");
    var webRequest :- ToList(Prop(data, "WEB_REQUEST"));
    Success(PermissionRequirements(blockchainSend, webRequest))
  }

  /** `requirements.toJSON()`: both keys, always, even when undefined. */
  function RequirementsToJSON(r: PermissionRequirements): (m: map<string, JsValue>)
    ensures m.Keys == {"BLOCKCHAIN_SEND", "WEB_REQUEST"}
  {
    map["BLOCKCHAIN_SEND" := r.blockchainSend, "WEB_REQUEST" := Arr(r.webRequest)]
  }

  /** A property read on the record instance: the two declared keys, and
      `undefined` for every other name. */
  function RequirementsGet(r: PermissionRequirements, key: string): (v: JsValue)
    ensures key != "BLOCKCHAIN_SEND" && key != "WEB_REQUEST" ==> v == Undefined
  {
    Prop(Obj(RequirementsToJSON(r)), key)
  }

  /** An empty object gives the record's defaults. */
  lemma EmptyObjectGivesDefaults()
    ensures PermissionRequirementsOf(Obj(map[])) == Success(DefaultRequirements)
  {
  }

  /** Keys other than `BLOCKCHAIN_SEND` and `WEB_REQUEST` are dropped. */
  lemma RequirementsIgnoreOtherKeys(m1: map<string, JsValue>, m2: map<string, JsValue>)
    requires Prop(Obj(m1), "BLOCKCHAIN_SEND") == Prop(Obj(m2), "BLOCKCHAIN_SEND")
    requires Prop(Obj(m1), "WEB_REQUEST") == Prop(Obj(m2), "WEB_REQUEST")
    ensures PermissionRequirementsOf(Obj(m1)) == PermissionRequirementsOf(Obj(m2))
  {
  }
}
