/** packages/daemon/src/context/ContextEvents.js: the event filters, the
    three rules the daemon attaches to a client context, and the registry of
    their subscriptions. Each rule is one atomic step from an event to the
    feed operations it performs and the events it emits. */
module Events {
  import opened Js
  import opened Contacts

  /** An own or peer user, by id. */
  datatype UserRef = UserRef(id: string)

  /** A context event; which fields are set depends on its `type` tag. */
  datatype ContextEvent = ContextEvent(
    tag: string,
    user: Option<UserRef>,
    contact: Option<Contact>,
    userID: Option<string>,
    change: Option<string>)

  /** The tags `vaultOpened` passes. */
  predicate VaultOpened(e: ContextEvent) {
    e.tag == "vault_created" || e.tag == "vault_opened"
  }

  /** The tags that change what the vault stores. */
  const ModifyingTags: set<string> := {
    "app_created", "app_changed", "app_data_changed", "app_installed",
    "contact_created", "contact_changed", "contact_deleted",
    "peer_created", "peer_changed", "peer_deleted",
    "user_created", "user_changed", "user_deleted"}

  /** The tags `vaultModified` passes. */
  predicate VaultModified(e: ContextEvent) {
    e.tag in ModifyingTags
  }

  /** Opening a vault never triggers a save, and thirteen tags do. */
  lemma VaultEventsDoNotSave(e: ContextEvent)
    ensures VaultOpened(e) ==> !VaultModified(e)
    ensures |ModifyingTags| == 13
  {
  }

  // ---------------------------------------------------------------------
  // Autosave: `vaultModified` debounced by 1000 ms.

  const DebounceMs := 1000

  /** The times at which a save starts, for modifications at `times`: an
      event is followed by a save unless another arrives less than 1000 ms
      after it. */
  function SaveTimes(times: seq<int>): (r: seq<int>)
    ensures |r| <= |times|
    ensures |times| > 0 ==> |r| > 0 && r[|r| - 1] == times[|times| - 1] + DebounceMs
  {
    if |times| == 0 then []
    else if |times| == 1 then [times[0] + DebounceMs]
    else (if times[1] - times[0] >= DebounceMs then [times[0] + DebounceMs] else []) + SaveTimes(times[1..])
  }

  /** A burst of modifications each less than 1000 ms after the previous one
      saves once, 1000 ms after the last of them. */
  lemma {:induction false} BurstSavesOnce(times: seq<int>)
    requires |times| > 0
    requires forall i :: 0 < i < |times| ==> times[i] - times[i - 1] < DebounceMs
    ensures SaveTimes(times) == [times[|times| - 1] + DebounceMs]
  {
    if |times| > 1 {
      var rest := times[1..];
      forall i | 0 < i < |rest|
        ensures rest[i] - rest[i - 1] < DebounceMs
      {
        assert rest[i] == times[i + 1] && rest[i - 1] == times[i];
      }
      BurstSavesOnce(rest);
    }
  }

  /** Modifications far enough apart each get their own save. */
  lemma {:induction false} SpacedSavesEach(times: seq<int>)
    requires forall i :: 0 < i < |times| ==> times[i] - times[i - 1] >= DebounceMs
    ensures SaveTimes(times) == seq(|times|, i requires 0 <= i < |times| => times[i] + DebounceMs)
  {
    if |times| > 1 {
      var rest := times[1..];
      forall i | 0 < i < |rest|
        ensures rest[i] - rest[i - 1] >= DebounceMs
      {
        assert rest[i] == times[i + 1] && rest[i - 1] == times[i];
      }
      SpacedSavesEach(rest);
    }
  }

  datatype LogEntry = LogEntry(message: string, error: string)

  /** One save: a failure is logged and goes no further. */
  function AutoSave(saveError: Option<string>): (log: seq<LogEntry>)
    ensures saveError.None? <==> log == []
    ensures saveError.Some? ==> log == [LogEntry("Failed to save vault: ", saveError.value)]
  {
    match saveError
    case None => []
    case Some(err) => [LogEntry("Failed to save vault: ", err)]
  }

  /** The errors among the outcomes of the saves, in order. */
  function Failures(outcomes: seq<Option<string>>): (r: seq<string>)
    ensures |r| <= |outcomes|
  {
    if |outcomes| == 0 then []
    else (if outcomes[0].Some? then [outcomes[0].value] else []) + Failures(outcomes[1..])
  }

  /** The log of a sequence of saves with the given outcomes: every save is
      handled on its own, whatever the earlier ones did, and each failure
      leaves exactly one entry, in order. */
  function SaveLog(outcomes: seq<Option<string>>): (log: seq<LogEntry>)
    ensures |log| == |Failures(outcomes)|
    ensures forall i :: 0 <= i < |log| ==> log[i] == LogEntry("Failed to save vault: ", Failures(outcomes)[i])
    ensures (forall i :: 0 <= i < |outcomes| ==> outcomes[i].None?) <==> log == []
    ensures forall i :: 0 <= i < |outcomes| && outcomes[i].Some? ==>
      LogEntry("Failed to save vault: ", outcomes[i].value) in log
  {
    if |outcomes| == 0 then []
    else
      var rest := SaveLog(outcomes[1..]);
      assert forall i :: 0 < i < |outcomes| ==> outcomes[i] == outcomes[1..][i - 1];
      AutoSave(outcomes[0]) + rest
  }

  /** A run of the autosave subscription. */
  datatype SaveRun = SaveRun(attempted: seq<int>, log: seq<LogEntry>)

  /** The autosave subscription over modifications at `times`: a save is
      attempted at each debounced time, `outcomes[i]` is the error of the
      `i`-th save (if it failed), and a failure is logged, not raised. */
  function AutoSaveRun(times: seq<int>, outcomes: seq<Option<string>>): (r: SaveRun)
    requires |outcomes| == |SaveTimes(times)|
    ensures |r.attempted| == |outcomes| && |r.attempted| <= |times|
    ensures |times| > 0 ==> r.attempted[|r.attempted| - 1] == times[|times| - 1] + DebounceMs
    ensures |r.log| == |Failures(outcomes)| <= |r.attempted|
    ensures forall i :: 0 <= i < |outcomes| && outcomes[i].Some? ==>
      LogEntry("Failed to save vault: ", outcomes[i].value) in r.log
  {
    SaveRun(SaveTimes(times), SaveLog(outcomes))
  }

  /** The saves attempted do not depend on how earlier saves went: a failed
      save does not end the subscription. */
  lemma FailuresDoNotStopSaving(times: seq<int>, outcomes1: seq<Option<string>>, outcomes2: seq<Option<string>>)
    requires |outcomes1| == |outcomes2| == |SaveTimes(times)|
    ensures AutoSaveRun(times, outcomes1).attempted == AutoSaveRun(times, outcomes2).attempted
  {
  }

  /** Every save failing logs one entry per save; none failing logs nothing. */
  lemma {:induction false} FailuresLoggedOnePerSave(outcomes: seq<Option<string>>)
    ensures (forall i :: 0 <= i < |outcomes| ==> outcomes[i].Some?) ==> |SaveLog(outcomes)| == |outcomes|
  {
    if |outcomes| > 0 && forall i :: 0 <= i < |outcomes| ==> outcomes[i].Some? {
      assert forall i :: 0 <= i < |outcomes| - 1 ==> outcomes[1..][i] == outcomes[i + 1];
      FailuresLoggedOnePerSave(outcomes[1..]);
    }
  }

  // ---------------------------------------------------------------------
  // The feed operations the rules perform.

  datatype FeedOp =
    | PublishPublicFeed(user: UserRef)
    | SyncPublicManifest(user: UserRef)
    | PublishSharedData(contactID: string)
    | SyncSharedManifest(contactID: string)
    | PublishFirstContact(keyPair: string, topic: string, payload: string)

  /** What one step of a rule does: feed operations, then emitted events. */
  datatype Effects = Effects(ops: seq<FeedOp>, emitted: seq<ContextEvent>)

  const NoEffects := Effects([], [])

  // ---------------------------------------------------------------------
  // The user-feed rule.

  predicate UserFeedStaleFilter(e: ContextEvent) {
    e.tag == "user_created" || (e.tag == "user_changed" && e.change == Some("profile"))
  }

  /** `userFeedStale`: republishes the user's public feed, then emits a
      `publicFeed` change when `resync` (what `syncManifest` reported) says
      the manifest moved. An event without a user fails. */
  function UserFeedStale(e: ContextEvent, resync: bool): (r: Result<Effects, JsError>)
    ensures !UserFeedStaleFilter(e) ==> r == Success(NoEffects)
    ensures UserFeedStaleFilter(e) && e.user.None? ==> r == Failure(TypeError)
    ensures UserFeedStaleFilter(e) && e.user.Some? ==>
      r.Success? && r.value.ops == [PublishPublicFeed(e.user.value), SyncPublicManifest(e.user.value)]
    ensures r.Success? ==> |r.value.emitted| <= 1
    ensures UserFeedStaleFilter(e) && e.user.Some? ==> (|r.value.emitted| == 1 <==> resync)
    ensures r.Success? && |r.value.emitted| == 1 ==>
      resync && r.value.emitted[0] == ContextEvent("user_changed", e.user, None, None, Some("publicFeed"))
  {
    if !UserFeedStaleFilter(e) then Success(NoEffects)
    else if e.user.None? then Failure(TypeError)
    else
      var user := e.user.value;
      Success(Effects(
        [PublishPublicFeed(user), SyncPublicManifest(user)],
        if resync then [ContextEvent("user_changed", Some(user), None, None, Some("publicFeed"))] else []))
  }

  /** The rule's own follow-up never fires it again. */
  lemma UserFeedStaleSettles(e: ContextEvent, resync: bool, resync2: bool)
    requires UserFeedStale(e, resync).Success?
    ensures forall f :: f in UserFeedStale(e, resync).value.emitted ==>
      !UserFeedStaleFilter(f) && UserFeedStale(f, resync2) == Success(NoEffects)
  {
  }

  // ---------------------------------------------------------------------
  // The contact-request rule.

  /** The corrected filter: a created or changed contact whose connection
      is `sending`. */
  predicate ContactRequestFilter(e: ContextEvent) {
    && (e.tag == "contact_created" || e.tag == "contact_changed")
    && e.contact.Some?
    && Property(e.contact.value, "connection") == Str("sending")
  }

  /** The filter as written, which reads `contact.connectionState`. */
  function ContactRequestFilterAsWritten(e: ContextEvent): Result<bool, JsError> {
    if !(e.tag == "contact_created" || e.tag == "contact_changed") then Success(false)
    else if e.contact.None? then Failure(TypeError)
    else Success(Property(e.contact.value, "connectionState") == Str("sending"))
  }

  /** As written, the rule never fires. */
  lemma ContactRequestNeverFiresAsWritten(e: ContextEvent)
    ensures ContactRequestFilterAsWritten(e) != Success(true)
  {
  }

  /** The input that shows it: a new contact, which is `sending`. */
  lemma NewContactNotSentAsWritten(c: Contact, userID: string)
    requires Connection(c) == Sending
    ensures var e := ContextEvent("contact_created", None, Some(c), Some(userID), None);
      ContactRequestFilter(e) && ContactRequestFilterAsWritten(e) == Success(false)
  {
  }

  /** The peer a request goes to: its public key is the first-contact topic. */
  datatype PeerRef = PeerRef(id: string, base64PublicKey: string)

  /** The own user's first-contact key pair. */
  datatype OwnUserRef = OwnUserRef(id: string, firstContactKeyPair: string)

  /** The handler's one step, on the event's contact: `user` and `peer` are
      what the identity store resolved, `payload` the contact's first-contact
      payload. Returns the contact after the step and the effects. */
  function ContactRequestSending(e: ContextEvent, user: Option<OwnUserRef>, peer: Option<PeerRef>, payload: string): (r: (Option<Contact>, Effects))
    ensures !ContactRequestFilter(e) || user.None? || peer.None? ==> r == (e.contact, NoEffects)
    ensures ContactRequestFilter(e) && user.Some? && peer.Some? ==>
      var c := e.contact.value;
      && r.0 == Some(MarkRequestSent(c))
      && r.1.ops == [PublishSharedData(c.localID), SyncSharedManifest(c.localID),
                     PublishFirstContact(user.value.firstContactKeyPair, peer.value.base64PublicKey, payload)]
      && r.1.emitted == [ContextEvent("contact_changed", None, r.0, e.userID, Some("requestSent"))]
  {
    if !ContactRequestFilter(e) || user.None? || peer.None? then (e.contact, NoEffects)
    else
      var c := e.contact.value;
      var sent := MarkRequestSent(c);
      (Some(sent), Effects(
        [PublishSharedData(c.localID), SyncSharedManifest(c.localID),
         PublishFirstContact(user.value.firstContactKeyPair, peer.value.base64PublicKey, payload)],
        [ContextEvent("contact_changed", None, Some(sent), e.userID, Some("requestSent"))]))
  }

  /** The rule's follow-up never fires it again: the contact has left `sending`. */
  lemma ContactRequestSettles(e: ContextEvent, user: Option<OwnUserRef>, peer: Option<PeerRef>, payload: string)
    ensures forall f :: f in ContactRequestSending(e, user, peer, payload).1.emitted ==> !ContactRequestFilter(f)
  {
    if ContactRequestFilter(e) && user.Some? && peer.Some? {
      HandshakeMonotone(e.contact.value, "");
    }
  }

  /** The handler as written, behind the corrected filter: `Contact` has
      neither a `sharedFeed` nor a `generatefirstContactPayload` member, so
      once the user and the peer resolve, reading `publishLocalData` of the
      undefined shared feed (line 115) throws before anything is published;
      the later call of the missing payload method (line 126) is not reached. */
  function ContactRequestHandlerAsWritten(e: ContextEvent, user: Option<OwnUserRef>, peer: Option<PeerRef>): Result<Effects, JsError> {
    if !ContactRequestFilter(e) || user.None? || peer.None? then Success(NoEffects)
    else
      var c := e.contact.value;
      match GetProp(Property(c, "sharedFeed"), "publishLocalData")
      case Failure(err) => Failure(err)
      case Success(_) => Success(NoEffects)
  }

  /** As written, every request that gets past the filter and the identity
      lookups throws a TypeError: nothing is published and the contact is
      never marked. Without a user or a peer the handler returns quietly. */
  lemma ContactRequestThrowsAsWritten(e: ContextEvent, user: Option<OwnUserRef>, peer: Option<PeerRef>)
    ensures ContactRequestFilter(e) && user.Some? && peer.Some? ==>
      ContactRequestHandlerAsWritten(e, user, peer) == Failure(TypeError)
    ensures !ContactRequestFilter(e) || user.None? || peer.None? ==>
      ContactRequestHandlerAsWritten(e, user, peer) == Success(NoEffects)
  {
  }

  /** The handler as written assigns `contact.requestSent`, a name the class
      does not define, so the contact keeps its state. */
  function ContactRequestSendingAsWritten(e: ContextEvent, user: Option<OwnUserRef>, peer: Option<PeerRef>, payload: string): (Option<Contact>, Effects) {
    var (_, effects) := ContactRequestSending(e, user, peer, payload);
    (e.contact, effects.(emitted := seq(|effects.emitted|, i requires 0 <= i < |effects.emitted| =>
                                      effects.emitted[i].(contact := e.contact))))
  }

  /** With the filter and the missing `Contact` members (lines 115 and 126)
      corrected but line 128 as written, the handler would fire on its own
      follow-up, publishing the request again and again. */
  lemma ContactRequestLoopsAsWritten(c: Contact, userID: string, user: OwnUserRef, peer: PeerRef, payload: string)
    requires Connection(c) == Sending
    ensures var e := ContextEvent("contact_created", None, Some(c), Some(userID), None);
      var f := ContactRequestSendingAsWritten(e, Some(user), Some(peer), payload).1.emitted;
      |f| == 1 && ContactRequestFilter(f[0])
  {
  }

  // ---------------------------------------------------------------------
  // The subscription registry.

  /** An rxjs subscription; unsubscribing is idempotent. */
  class Subscription {
    var closed: bool

    constructor()
      ensures !closed
    {
      closed := false;
    }

    method Unsubscribe()
      modifies this
      ensures closed
    {
      closed := true;
    }
  }

  class ContextEvents {
    var subscriptions: map<string, Subscription>

    /** The constructor registers its three rules, open. */
    constructor()
      ensures subscriptions.Keys == {"autoSaveVault", "userFeedStale", "contactRequestSending"}
      ensures forall k :: k in subscriptions ==> fresh(subscriptions[k]) && !subscriptions[k].closed
    {
      var autoSave := new Subscription();
      var userFeed := new Subscription();
      var contactRequest := new Subscription();
      subscriptions := map[
        "autoSaveVault" := autoSave,
        "userFeedStale" := userFeed,
        "contactRequestSending" := contactRequest];
    }

    /** `addSubscription`: a subscription already under `key` is dropped
        from the registry but left open. */
    method AddSubscription(key: string, sub: Subscription)
      modifies this
      ensures subscriptions == old(subscriptions)[key := sub]
      ensures forall s :: s in old(subscriptions).Values ==> s.closed == old(s.closed)
    {
      subscriptions := subscriptions[key := sub];
    }

    /** `removeSubscription`: closes the subscription under `key`, which
        stays registered. */
    method RemoveSubscription(key: string)
      modifies if key in subscriptions then {subscriptions[key]} else {}
      ensures key in subscriptions ==> subscriptions[key].closed
    {
      if key in subscriptions {
        subscriptions[key].Unsubscribe();
      }
    }

    /** `clear`: closes every subscription and empties the registry. */
    method Clear()
      modifies this, subscriptions.Values
      ensures forall s :: s in old(subscriptions).Values ==> s.closed
      ensures subscriptions == map[]
    {
      var subs := subscriptions.Values;
      var left := subs;
      while left != {}
        invariant left <= subs
        invariant forall s :: s in subs && s !in left ==> s.closed
        decreases left
      {
        var s :| s in left;
        s.Unsubscribe();
        left := left - {s};
      }
      subscriptions := map[];
    }
  }
}
