/** packages/daemon/src/identity/Contact.js: a peer relationship, the feed
    this side owns for it, and the derived connection state. */
module Contacts {
  import opened Js

  // The feed owned for a relationship. packages/daemon/src/swarm/feed.js is
  // not part of this model: a feed is its key pair and topic, and its
  // serialised form holds the same two values.

  datatype OwnFeed = OwnFeed(privateKey: string, topic: string)

  datatype OwnFeedSerialized = OwnFeedSerialized(privateKey: string, topic: string)

  function FeedToJSON(f: OwnFeed): (r: OwnFeedSerialized)
    ensures r.privateKey == f.privateKey && r.topic == f.topic
  {
    OwnFeedSerialized(f.privateKey, f.topic)
  }

  function FeedFromJSON(s: OwnFeedSerialized): (r: OwnFeed)
    ensures r.privateKey == s.privateKey && r.topic == s.topic
  {
    OwnFeed(s.privateKey, s.topic)
  }

  lemma FeedRoundTrip(f: OwnFeed, s: OwnFeedSerialized)
    ensures FeedFromJSON(FeedToJSON(f)) == f
    ensures FeedToJSON(FeedFromJSON(s)) == s
  {
  }

  /** The display metadata; every field is optional. */
  datatype ContactProfile = ContactProfile(
    aliasName: Option<string>,
    name: Option<string>,
    avatar: Option<string>,
    ethAddress: Option<string>)

  /** A string-or-absent value in a boolean position. */
  predicate Present(s: Option<string>) {
    s.Some? && s.value != ""
  }

  datatype Contact = Contact(
    localID: string,
    peerID: string,
    profile: ContactProfile,
    ownFeed: OwnFeed,
    requestSent: bool,
    contactFeed: Option<string>)

  /** `new Contact(...)`: `requestSent` may be omitted and is coerced to a boolean. */
  function NewContact(localID: string, peerID: string, profile: ContactProfile, ownFeed: OwnFeed,
                      requestSent: Option<bool>, contactFeed: Option<string>): (r: Contact)
    ensures r.requestSent <==> requestSent == Some(true)
    ensures r.localID == localID && r.peerID == peerID && r.profile == profile
    ensures r.ownFeed == ownFeed && r.contactFeed == contactFeed
  {
    Contact(localID, peerID, profile, ownFeed, requestSent == Some(true), contactFeed)
  }

  datatype ContactConnection = Connected | Sent | Sending

  function ConnectionName(c: ContactConnection): string {
    match c
    case Connected => "connected"
    case Sent => "sent"
    case Sending => "sending"
  }

  /** The `connection` getter. */
  function Connection(c: Contact): (r: ContactConnection)
    ensures r == Connected <==> Present(c.contactFeed)
    ensures r == Sent <==> !Present(c.contactFeed) && c.requestSent
    ensures r == Sending <==> !Present(c.contactFeed) && !c.requestSent
  {
    if Present(c.contactFeed) then Connected
    else if c.requestSent then Sent
    else Sending
  }

  /** The `name` getter: the alias when it is a non-empty string, otherwise the profile name. */
  function Name(c: Contact): (r: Option<string>)
    ensures Present(c.profile.aliasName) ==> r == c.profile.aliasName
    ensures !Present(c.profile.aliasName) ==> r == c.profile.name
  {
    if Present(c.profile.aliasName) then c.profile.aliasName else c.profile.name
  }

  /** `Contact.create(peerID, profile, contactFeed, localID)`. `freshID`
      stands for `uniqueID()`, and `feedKey` and `topic` for the key pair
      and random topic of the new feed. */
  function Create(peerID: string, profile: ContactProfile, contactFeed: Option<string>, localID: Option<string>,
                  freshID: string, feedKey: string, topic: string): (r: Contact)
    ensures r.localID == if Present(localID) then localID.value else freshID
    ensures r.peerID == peerID && r.profile == profile && r.contactFeed == contactFeed
    ensures r.ownFeed == OwnFeed(feedKey, topic)
    ensures !r.requestSent
    ensures Connection(r) == if Present(contactFeed) then Connected else Sending
  {
    NewContact(if Present(localID) then localID.value else freshID, peerID, profile,
               OwnFeed(feedKey, topic), Some(false), contactFeed)
  }

  /** `ContactSerialized`; a record read back from storage may lack `requestSent`. */
  datatype ContactSerialized = ContactSerialized(
    localID: string,
    peerID: string,
    profile: ContactProfile,
    ownFeed: OwnFeedSerialized,
    requestSent: Option<bool>,
    contactFeed: Option<string>)

  /** `Contact.fromJSON`. */
  function FromJSON(s: ContactSerialized): (r: Contact)
    ensures r.localID == s.localID && r.peerID == s.peerID && r.profile == s.profile
    ensures FeedToJSON(r.ownFeed) == s.ownFeed
    ensures r.requestSent <==> s.requestSent == Some(true)
    ensures r.contactFeed == s.contactFeed
  {
    NewContact(s.localID, s.peerID, s.profile, FeedFromJSON(s.ownFeed), s.requestSent, s.contactFeed)
  }

  /** `Contact.toJSON`, reading the stored id (see `ToJSONAsWritten`). */
  function ToJSON(c: Contact): (r: ContactSerialized)
    ensures r.localID == c.localID && r.peerID == c.peerID && r.profile == c.profile
    ensures r.ownFeed == FeedToJSON(c.ownFeed)
    ensures r.requestSent == Some(c.requestSent) && r.contactFeed == c.contactFeed
  {
    ContactSerialized(c.localID, c.peerID, c.profile, FeedToJSON(c.ownFeed), Some(c.requestSent), c.contactFeed)
  }

  lemma FromToJSON(c: Contact)
    ensures FromJSON(ToJSON(c)) == c
  {
    FeedRoundTrip(c.ownFeed, FeedToJSON(c.ownFeed));
  }

  /** A stored record survives a load and save unchanged exactly when it
      holds its `requestSent` flag. */
  lemma ToFromJSON(s: ContactSerialized)
    ensures ToJSON(FromJSON(s)) == s <==> s.requestSent.Some?
  {
    FeedRoundTrip(FeedFromJSON(s.ownFeed), s.ownFeed);
    var r := ToJSON(FromJSON(s));
    assert r.requestSent == Some(s.requestSent == Some(true));
    if s.requestSent.Some? {
      if s.requestSent.value {
        assert s.requestSent == Some(true);
      } else {
        assert s.requestSent == Some(false);
      }
      assert r.ownFeed == s.ownFeed;
      assert r.localID == s.localID && r.peerID == s.peerID;
      assert r.profile == s.profile && r.contactFeed == s.contactFeed;
    }
  }

  /** The `localID` getter as written: it reads `this.localID`, that is
      itself, until the call stack of depth `stack` is exhausted. */
  function LocalIDGetterAsWritten(c: Contact, stack: nat): Result<string, JsError>
    decreases stack
  {
    if stack == 0 then Failure(RangeError) else LocalIDGetterAsWritten(c, stack - 1)
  }

  lemma {:induction false} LocalIDGetterOverflows(c: Contact, stack: nat)
    ensures LocalIDGetterAsWritten(c, stack) == Failure(RangeError)
    decreases stack
  {
    if stack > 0 {
      LocalIDGetterOverflows(c, stack - 1);
    }
  }

  /** `Contact.toJSON` as written, which goes through the getter. */
  function ToJSONAsWritten(c: Contact, stack: nat): Result<ContactSerialized, JsError> {
    var localID :- LocalIDGetterAsWritten(c, stack);
    Success(ToJSON(c).(localID := localID))
  }

  /** No contact can be serialised as written. */
  lemma ToJSONAsWrittenFails(c: Contact, stack: nat)
    ensures ToJSONAsWritten(c, stack) == Failure(RangeError)
  {
    LocalIDGetterOverflows(c, stack);
  }

  /** Reading a property of a contact object by name, for the names the
      daemon's rules read: the `connection` getter, the stored `_requestSent`
      field, and names the class does not define, which read as `undefined`. */
  function Property(c: Contact, name: string): (r: JsValue)
    requires name in {"connection", "_requestSent", "connectionState", "requestSent", "sharedFeed", "generatefirstContactPayload"}
    ensures name == "connection" ==> r == Str(ConnectionName(Connection(c)))
    ensures name == "_requestSent" ==> r == Bool(c.requestSent)
    ensures name in {"connectionState", "requestSent", "sharedFeed", "generatefirstContactPayload"} ==> r == Undefined
  {
    if name == "connection" then Str(ConnectionName(Connection(c)))
    else if name == "_requestSent" then Bool(c.requestSent)
    else Undefined
  }

  // The two transitions a contact goes through after creation.

  /** The request has been published. */
  function MarkRequestSent(c: Contact): (r: Contact)
    ensures r.requestSent
    ensures r.(requestSent := c.requestSent) == c
  {
    c.(requestSent := true)
  }

  /** The peer's feed has become known. */
  function SetContactFeed(c: Contact, feed: string): (r: Contact)
    ensures r.contactFeed == Some(feed)
    ensures r.(contactFeed := c.contactFeed) == c
  {
    c.(contactFeed := Some(feed))
  }

  function Rank(c: ContactConnection): nat {
    match c
    case Sending => 0
    case Sent => 1
    case Connected => 2
  }

  /** The handshake only moves forward: `sending`, then `sent`, then
      `connected`; marking the request sent always leaves `sending`. */
  lemma HandshakeMonotone(c: Contact, feed: string)
    ensures Rank(Connection(MarkRequestSent(c))) >= Rank(Connection(c))
    ensures Connection(MarkRequestSent(c)) != Sending
    ensures feed != "" ==> Connection(SetContactFeed(c, feed)) == Connected
  {
  }
}
