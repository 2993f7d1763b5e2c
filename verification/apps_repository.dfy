/** packages/daemon/src/store/repositories/AppsRepository.js: the installed
    apps by id, and the index from canonical manifest id (MFID) to app id. */
module AppsRepositories {
  import opened Js
  import opened PeerApps
  import opened Repositories

  datatype AppsValue = AppsValue(byMFID: map<string, string>, peer: map<string, PeerApp>)

  const EmptyApps := AppsValue(map[], map[])

  /** The `apps` argument: its entries in `Object.keys` order. */
  type AppsInput = seq<(string, PeerAppData)>

  ghost predicate DistinctIds(apps: AppsInput) {
    forall i, j :: 0 <= i < j < |apps| ==> apps[i].0 != apps[j].0
  }

  /** `Map(apps).map(PeerApp.fromJSON)`: the first app whose data does not
      decode raises its error. */
  function PeerMap(apps: AppsInput): (r: Result<map<string, PeerApp>, JsError>)
    ensures r.Success? <==> forall i :: 0 <= i < |apps| ==> FromJSON(apps[i].1).Success?
    ensures r.Success? ==> r.value.Keys == set i | 0 <= i < |apps| :: apps[i].0
  {
    if |apps| == 0 then Success(map[])
    else
      var app :- FromJSON(apps[0].1);
      var rest :- PeerMap(apps[1..]);
      assert forall i :: 1 <= i < |apps| ==> apps[i] == apps[1..][i - 1];
      Success(rest[apps[0].0 := app])
  }

  /** With distinct ids, each app is stored as its own decoded data. */
  lemma {:induction false} PeerMapValues(apps: AppsInput, i: nat)
    requires DistinctIds(apps) && PeerMap(apps).Success?
    requires i < |apps|
    ensures Success(PeerMap(apps).value[apps[i].0]) == FromJSON(apps[i].1)
  {
    var tail := apps[1..];
    assert PeerMap(apps).value == PeerMap(tail).value[apps[0].0 := FromJSON(apps[0].1).value];
    if i > 0 {
      assert tail[i - 1] == apps[i];
      assert DistinctIds(tail) by {
        forall a, b | 0 <= a < b < |tail| ensures tail[a].0 != tail[b].0 {
          assert tail[a] == apps[a + 1] && tail[b] == apps[b + 1];
        }
      }
      PeerMapValues(tail, i - 1);
      assert apps[0].0 != apps[i].0;
    }
  }

  /** The MFID an app is indexed under: the canonical form of the raw
      `manifest.id` in its data. */
  function MfidOf(data: PeerAppData, canonical: JsValue -> string): string {
    canonical(Prop(data.manifest, "id"))
  }

  /** The object the `reduce` builds: each MFID mapped to the id of the
      last app, in key order, that has it. */
  function ByMfid(apps: AppsInput, canonical: JsValue -> string): (r: map<string, string>)
    ensures r.Keys == set i | 0 <= i < |apps| :: MfidOf(apps[i].1, canonical)
  {
    if |apps| == 0 then map[]
    else
      var last := apps[|apps| - 1];
      var r := ByMfid(apps[..|apps| - 1], canonical)[MfidOf(last.1, canonical) := last.0];
      assert forall i :: 0 <= i < |apps| - 1 ==> apps[i] == apps[..|apps| - 1][i];
      r
  }

  /** Each MFID maps to the app at the highest position that has it. */
  lemma {:induction false} ByMfidLastWins(apps: AppsInput, canonical: JsValue -> string, i: nat)
    requires i < |apps|
    requires forall j :: i < j < |apps| ==> MfidOf(apps[j].1, canonical) != MfidOf(apps[i].1, canonical)
    ensures ByMfid(apps, canonical)[MfidOf(apps[i].1, canonical)] == apps[i].0
  {
    var n := |apps| - 1;
    if i < n {
      var front := apps[..n];
      assert front[i] == apps[i];
      forall j | i < j < |front|
        ensures MfidOf(front[j].1, canonical) != MfidOf(front[i].1, canonical)
      {
        assert front[j] == apps[j];
      }
      ByMfidLastWins(front, canonical, i);
    }
  }

  /** The value after the merge: new entries win, others are kept. */
  function Merged(v: AppsValue, byMFID: map<string, string>, peer: map<string, PeerApp>): (r: AppsValue)
    ensures r.byMFID.Keys == v.byMFID.Keys + byMFID.Keys && r.peer.Keys == v.peer.Keys + peer.Keys
    ensures forall k :: k in byMFID ==> r.byMFID[k] == byMFID[k]
    ensures forall k :: k in v.byMFID && k !in byMFID ==> r.byMFID[k] == v.byMFID[k]
    ensures forall k :: k in peer ==> r.peer[k] == peer[k]
    ensures forall k :: k in v.peer && k !in peer ==> r.peer[k] == v.peer[k]
  {
    AppsValue(v.byMFID + byMFID, v.peer + peer)
  }

  class AppsRepository {
    const repo: Repository<AppsValue>

    ghost predicate Valid()
      reads this, repo
    {
      repo.Valid()
    }

    constructor()
      ensures Valid() && fresh(repo)
      ensures repo.value == EmptyApps && repo.emitted == [EmptyApps]
    {
      repo := new Repository(EmptyApps);
    }

    /** `setPeerApps(apps)`: decodes every app, indexes them by MFID and
        merges both maps into the held value. A decoding error leaves the
        repository untouched. */
    method SetPeerApps(apps: AppsInput, canonical: JsValue -> string) returns (r: Result<(), JsError>)
      requires Valid()
      requires DistinctIds(apps)
      modifies repo
      ensures Valid()
      ensures r.Success? <==> PeerMap(apps).Success?
      ensures r.Failure? ==> r.error == PeerMap(apps).error && unchanged(repo)
      ensures r.Success? ==>
        repo.UpdatedTo(Merged(old(repo.value), ByMfid(apps, canonical), PeerMap(apps).value))
    {
      var peer :- PeerMap(apps);
      var byMFID := map[];
      for i := 0 to |apps|
        invariant byMFID == ByMfid(apps[..i], canonical)
      {
        assert apps[..i + 1][..i] == apps[..i];
        byMFID := byMFID[MfidOf(apps[i].1, canonical) := apps[i].0];
      }
      assert apps[..|apps|] == apps;
      repo.Update((v: AppsValue) => Merged(v, byMFID, peer));
      r := Success(());
    }
  }

  /** After a successful `setPeerApps`, every input app is stored under its
      id, and its MFID leads back to it unless a later app shares that MFID. */
  lemma SetPeerAppsIndexes(v: AppsValue, apps: AppsInput, canonical: JsValue -> string, i: nat)
    requires DistinctIds(apps) && PeerMap(apps).Success?
    requires i < |apps|
    requires forall j :: i < j < |apps| ==> MfidOf(apps[j].1, canonical) != MfidOf(apps[i].1, canonical)
    ensures var w := Merged(v, ByMfid(apps, canonical), PeerMap(apps).value);
      && Success(w.peer[apps[i].0]) == FromJSON(apps[i].1)
      && w.byMFID[MfidOf(apps[i].1, canonical)] == apps[i].0
  {
    var byMFID := ByMfid(apps, canonical);
    var peer := PeerMap(apps).value;
    PeerMapValues(apps, i);
    ByMfidLastWins(apps, canonical, i);
    assert apps[i].0 in peer;
    assert MfidOf(apps[i].1, canonical) in byMFID;
    var w := Merged(v, byMFID, peer);
    assert w.peer[apps[i].0] == peer[apps[i].0];
    assert w.byMFID[MfidOf(apps[i].1, canonical)] == byMFID[MfidOf(apps[i].1, canonical)];
  }
}
