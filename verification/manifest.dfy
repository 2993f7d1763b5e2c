/** The manifest records of packages/daemon/src/store/repositories/app/Manifest.js. */
module Manifests {
  import opened Js
  import opened Requirements

  /** `ManifestAuthor`: a record that keeps only `id` (default `''`). */
  datatype ManifestAuthor = ManifestAuthor(id: JsValue)

  // Immutable's record constructor given an array (or a string, read as
  // its characters) takes it as a sequence of `[key, value]` entries: a
  // falsy entry is skipped, any other entry that is not an object is a
  // TypeError, and otherwise elements `0` and `1` are the key and the value.

  /** Element `0` (the key) of an entry. */
  function EntryKey(e: JsValue): JsValue {
    match e
    case Arr(xs) => if |xs| > 0 then xs[0] else Undefined
    case _ => Prop(e, "0")
  }

  /** Element `1` (the value) of an entry. */
  function EntryValue(e: JsValue): JsValue {
    match e
    case Arr(xs) => if |xs| > 1 then xs[1] else Undefined
    case _ => Prop(e, "1")
  }

  /** An entry the constructor refuses: truthy, but not an object. */
  predicate BadEntry(e: JsValue) {
    Truthy(e) && !(e.Arr? || e.Obj?)
  }

  /** An entry that sets `id`. */
  predicate IdEntry(e: JsValue) {
    (e.Arr? || e.Obj?) && EntryKey(e) == Str("id")
  }

  /** Entry `j` is the last entry that sets `id`. */
  predicate LastIdEntry(entries: seq<JsValue>, j: int) {
    && 0 <= j < |entries|
    && IdEntry(entries[j])
    && forall k :: j < k < |entries| ==> !IdEntry(entries[k])
  }

  /** The value `id` holds after the entries, starting from `id`: the last
      `id` entry wins, and one bad entry refuses the whole input. */
  function IdFromEntries(entries: seq<JsValue>, id: JsValue): (r: Result<JsValue, JsError>)
    ensures r.Failure? <==> exists i :: 0 <= i < |entries| && BadEntry(entries[i])
    ensures r.Failure? ==> r.error == TypeError
    ensures r.Success? && (forall i :: 0 <= i < |entries| ==> !IdEntry(entries[i])) ==> r.value == id
    ensures r.Success? ==> forall j :: LastIdEntry(entries, j) ==> r.value == EntryValue(entries[j])
  {
    if |entries| == 0 then Success(id)
    else
      var e := entries[0];
      if !Truthy(e) then
        var r := IdFromEntries(entries[1..], id);
        assert forall i :: 0 < i < |entries| ==> entries[i] == entries[1..][i - 1];
        assert forall j :: 0 < j && LastIdEntry(entries, j) ==> LastIdEntry(entries[1..], j - 1);
        r
      else if BadEntry(e) then Failure(TypeError)
      else
        var r := IdFromEntries(entries[1..], if IdEntry(e) then EntryValue(e) else id);
        assert forall i :: 0 < i < |entries| ==> entries[i] == entries[1..][i - 1];
        assert forall j :: 0 < j && LastIdEntry(entries, j) ==> LastIdEntry(entries[1..], j - 1);
        r
  }

  /** `new ManifestAuthor(data)`: Immutable's record constructor. A plain
      object gives its `id`; `undefined`, `null`, an array or a string is
      read as `[key, value]` entries, none for a nullish value; a number or
      a boolean is a TypeError. A field given `undefined` reads as `''`. */
  function ManifestAuthorOf(data: JsValue): (r: Result<ManifestAuthor, JsError>)
    ensures data.Obj? ==> r == Success(ManifestAuthor(FieldOr(Prop(data, "id"), Str(""))))
    ensures Nullish(data) ==> r == Success(ManifestAuthor(Str("")))
    ensures data.Num? || data.Bool? ==> r == Failure(TypeError)
    ensures data.Arr? ==>
      (r.Failure? <==> exists i :: 0 <= i < |data.items| && BadEntry(data.items[i]))
    ensures data.Arr? && r.Success? && (forall i :: 0 <= i < |data.items| ==> !IdEntry(data.items[i])) ==>
      r.value.id == Str("")
    ensures data.Arr? && r.Success? ==> forall j :: LastIdEntry(data.items, j) ==>
      r.value.id == FieldOr(EntryValue(data.items[j]), Str(""))
  {
    if data.Obj? then Success(ManifestAuthor(FieldOr(Prop(data, "id"), Str(""))))
    else
      var entries :- ToList(data);
      var id :- IdFromEntries(entries, Undefined);
      Success(ManifestAuthor(FieldOr(id, Str(""))))
  }

  /** The two requirement sets a session reads from `manifest.permissions`. */
  datatype ManifestPermissions = ManifestPermissions(required: PermissionRequirements, optional: PermissionRequirements)

  /** `manifest.permissions.toJSON()`, the value given to `havePermissionsToGrant`. */
  function ManifestPermissionsToJSON(p: ManifestPermissions): JsValue {
    Obj(map["required" := Obj(RequirementsToJSON(p.required)), "optional" := Obj(RequirementsToJSON(p.optional))])
  }

  /** The `permissions` field: each of `required` and `optional` normalised
      through `PermissionRequirements`. */
  function ManifestPermissionsOf(data: JsValue): (r: Result<ManifestPermissions, JsError>)
    ensures r.Success? <==>
      && !Nullish(data)
      && PermissionRequirementsOf(Prop(data, "required")).Success?
      && PermissionRequirementsOf(Prop(data, "optional")).Success?
    ensures r.Success? ==>
      && Success(r.value.required) == PermissionRequirementsOf(Prop(data, "required"))
      && Success(r.value.optional) == PermissionRequirementsOf(Prop(data, "optional"))
  {
    var required :- GetProp(data, "required");
    var required :- PermissionRequirementsOf(required);
    var optional :- PermissionRequirementsOf(Prop(data, "optional"));
    Success(ManifestPermissions(required, optional))
  }

  /** Line 26 as written: the whole `permissions` object goes through one
      `PermissionRequirements`, whose record has no `required` or `optional`. */
  function ManifestPermissionsAsWritten(data: JsValue): Result<PermissionRequirements, JsError> {
    PermissionRequirementsOf(data)
  }

  /** `Manifest`; the string fields hold whatever the input held, `''` when absent. */
  datatype Manifest = Manifest(
    id: JsValue,
    author: ManifestAuthor,
    name: JsValue,
    version: JsValue,
    contentsURI: JsValue,
    permissions: ManifestPermissions)

  /** `new Manifest(data)`. */
  function ManifestOf(data: JsValue): (r: Result<Manifest, JsError>)
    ensures Nullish(data) ==> r == Failure(TypeError)
    ensures r.Success? <==>
      && !Nullish(data)
      && ManifestAuthorOf(Prop(data, "author")).Success?
      && ManifestPermissionsOf(Prop(data, "permissions")).Success?
    ensures r.Success? ==>
      && r.value.id == FieldOr(Prop(data, "id"), Str(""))
      && r.value.name == FieldOr(Prop(data, "name"), Str(""))
      && r.value.version == FieldOr(Prop(data, "version"), Str(""))
      && r.value.contentsURI == FieldOr(Prop(data, "contentsURI"), Str(""))
      && Success(r.value.author) == ManifestAuthorOf(Prop(data, "author"))
      && Success(r.value.permissions) == ManifestPermissionsOf(Prop(data, "permissions"))
  {
    var id :- GetProp(data, "id");
    var author :- ManifestAuthorOf(Prop(data, "author"));
    var permissions :- ManifestPermissionsOf(Prop(data, "permissions"));
    Success(Manifest(
      FieldOr(id, Str("")),
      author,
      FieldOr(Prop(data, "name"), Str("")),
      FieldOr(Prop(data, "version"), Str("")),
      FieldOr(Prop(data, "contentsURI"), Str("")),
      permissions))
  }

  /** An author's other fields are dropped: only `id` survives. */
  lemma AuthorKeepsOnlyId(m1: map<string, JsValue>, m2: map<string, JsValue>)
    requires Prop(Obj(m1), "id") == Prop(Obj(m2), "id")
    ensures ManifestAuthorOf(Obj(m1)) == ManifestAuthorOf(Obj(m2))
  {
  }

  /** An empty array gives the defaults, as `undefined` does. */
  lemma EmptyAuthorArrayGivesDefaults()
    ensures ManifestAuthorOf(Arr([])) == ManifestAuthorOf(Undefined) == Success(ManifestAuthor(Str("")))
  {
  }

  /** The entry `['id', x]` gives the same author as the object `{id: x}`,
      and a later `id` entry overrides every earlier one. */
  lemma {:induction false} AuthorEntriesLastWins(entries: seq<JsValue>, x: JsValue)
    requires forall i :: 0 <= i < |entries| ==> !BadEntry(entries[i])
    ensures ManifestAuthorOf(Arr(entries + [Arr([Str("id"), x])])) == ManifestAuthorOf(Obj(map["id" := x]))
  {
    var all := entries + [Arr([Str("id"), x])];
    assert forall i :: 0 <= i < |entries| ==> all[i] == entries[i];
    assert IdEntry(all[|all| - 1]);
  }
}
