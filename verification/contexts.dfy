/** packages/launcher/src/main/contexts.js: the launcher's per-window
    contexts, each a registry of RPC subscriptions by id, with the
    notifications they send and, for an app, the single permission-denied
    subscription and the memoised storage and Swarm settings. */
module LauncherContexts {
  import opened Js

  /** `uniqueID()`: every id it hands out is new. */
  class IdSource {
    var count: nat
    ghost var issued: set<string>

    ghost predicate Valid()
      reads this
    {
      forall s :: s in issued ==> |s| <= count
    }

    constructor()
      ensures Valid() && issued == {}
    {
      count := 0;
      issued := {};
    }

    method Next() returns (id: string)
      requires Valid()
      modifies this
      ensures Valid()
      ensures id !in old(issued) && issued == old(issued) + {id}
    {
      id := seq(count + 1, _ => 'i');
      count := count + 1;
      issued := issued + {id};
    }
  }

  class ContextSubscription {
    const id: string
    const methodName: string
    var data: Option<JsValue>
    /** Whether `dispose()` has been called; the base class does nothing else on it. */
    ghost var disposed: bool

    constructor(ids: IdSource, methodName: string, data: Option<JsValue>)
      requires ids.Valid()
      modifies ids
      ensures ids.Valid()
      ensures id !in old(ids.issued) && ids.issued == old(ids.issued) + {id}
      ensures this.methodName == methodName && this.data == data && !disposed
    {
      var newID := ids.Next();
      id := newID;
      this.methodName := methodName;
      this.data := data;
      disposed := false;
    }

    method Dispose()
      modifies this
      ensures disposed && data == old(data)
    {
      disposed := true;
    }
  }

  datatype Channel = AppTrustedChannel | AppSandboxedChannel | LauncherChannel

  /** A JSON-RPC 2.0 notification for subscription `subscription`. */
  datatype Notification = Notification(jsonrpc: string, methodName: string, subscription: string, result: JsValue)

  /** An Electron window or web contents: what was sent to it, in order. */
  class Window {
    var sent: seq<(Channel, Notification)>

    constructor()
      ensures sent == []
    {
      sent := [];
    }

    method Send(channel: Channel, message: Notification)
      modifies this
      ensures sent == old(sent) + [(channel, message)]
    {
      sent := sent + [(channel, message)];
    }
  }

  /** The notification for subscription `id`, if it is registered. The
      result is a default parameter (`result = {}`): an omitted or
      `undefined` result becomes `{}`. */
  function NotificationFor(subscriptions: map<string, ContextSubscription>, id: string, result: JsValue): (r: Option<Notification>)
    ensures r.Some? <==> id in subscriptions
    ensures r.Some? ==> r.value.methodName == subscriptions[id].methodName && r.value.subscription == id
    ensures r.Some? ==> r.value.jsonrpc == "2.0"
    ensures r.Some? && result != Undefined ==> r.value.result == result
    ensures r.Some? && result == Undefined ==> r.value.result == Obj(map[])
  {
    if id in subscriptions then
      Some(Notification("2.0", subscriptions[id].methodName, id, FieldOr(result, Obj(map[]))))
    else None
  }

  class Context {
    var subscriptions: map<string, ContextSubscription>
    const window: Window

    /** Every subscription is registered under its own id. */
    ghost predicate Valid()
      reads this
    {
      forall k :: k in subscriptions ==> subscriptions[k].id == k
    }

    constructor(window: Window)
      ensures Valid() && subscriptions == map[] && this.window == window
    {
      subscriptions := map[];
      this.window := window;
    }

    /** `clear()`: disposes every subscription; the registry keeps them. */
    method Clear()
      modifies subscriptions.Values
      ensures forall s :: s in subscriptions.Values ==> s.disposed
      ensures forall s :: s in subscriptions.Values ==> s.data == old(s.data)
    {
      var subs := subscriptions.Values;
      var left := subs;
      while left != {}
        invariant left <= subs
        invariant forall s :: s in subs && s !in left ==> s.disposed
        invariant forall s :: s in subs ==> s.data == old(s.data)
        decreases left
      {
        var s :| s in left;
        s.Dispose();
        left := left - {s};
      }
    }

    /** `setSubscription(sub)`: registers `sub` under its id, replacing any
        entry with that id. */
    method SetSubscription(sub: ContextSubscription)
      requires Valid()
      modifies this
      ensures Valid()
      ensures subscriptions == old(subscriptions)[sub.id := sub]
    {
      subscriptions := subscriptions[sub.id := sub];
    }

    /** `createSubscription(method, data)`: a new subscription, registered. */
    method CreateSubscription(ids: IdSource, methodName: string, data: Option<JsValue>) returns (sub: ContextSubscription)
      requires Valid() && ids.Valid()
      modifies this, ids
      ensures Valid() && ids.Valid()
      ensures fresh(sub) && sub.methodName == methodName && sub.data == data && !sub.disposed
      ensures sub.id !in old(ids.issued) && ids.issued == old(ids.issued) + {sub.id}
      ensures subscriptions == old(subscriptions)[sub.id := sub]
    {
      sub := new ContextSubscription(ids, methodName, data);
      SetSubscription(sub);
    }

    /** `removeSubscription(id)`: disposes and unregisters a registered
        subscription; an unknown id is ignored. */
    method RemoveSubscription(id: string)
      requires Valid()
      modifies this, if id in subscriptions then {subscriptions[id]} else {}
      ensures Valid()
      ensures subscriptions == old(subscriptions) - {id}
      ensures id in old(subscriptions) ==> old(subscriptions)[id].disposed
    {
      if id in subscriptions {
        subscriptions[id].Dispose();
        subscriptions := subscriptions - {id};
      }
    }
  }

  /** The Swarm client a context builds: its gateway and the key it signs
      feed updates with. */
  datatype BzzApi = BzzApi(url: string, signingKey: string)

  /** The app's storage details in its session. */
  datatype AppSessionStorage = AppSessionStorage(feedKey: string, encryptionKey: string, feedHash: Option<string>)

  /** `AppStorageSettings`: the address, the signer and the encryption key
      are all derived from the session's storage details. */
  datatype AppStorageSettings = AppStorageSettings(feedKey: string, encryptionKey: string, feedHash: Option<string>)

  function StorageOf(s: AppSessionStorage): AppStorageSettings {
    AppStorageSettings(s.feedKey, s.encryptionKey, s.feedHash)
  }

  class AppContext {
    const context: Context
    const sessionStorage: AppSessionStorage
    var bzzURL: string
    var sandbox: Option<Window>
    var permissionDeniedID: Option<string>
    var bzz: Option<BzzApi>
    var storage: Option<AppStorageSettings>

    constructor(context: Context, sessionStorage: AppSessionStorage, bzzURL: string)
      ensures this.context == context && this.sessionStorage == sessionStorage && this.bzzURL == bzzURL
      ensures sandbox == None && permissionDeniedID == None && bzz == None && storage == None
      ensures forall ids: IdSource :: Valid(ids) <==>
        && context.Valid()
        && forall k :: k in context.subscriptions ==> context.subscriptions[k].methodName != "permission_denied"
    {
      this.context := context;
      this.sessionStorage := sessionStorage;
      this.bzzURL := bzzURL;
      sandbox := None;
      permissionDeniedID := None;
      bzz := None;
      storage := None;
    }

    /** The `storage` getter: computed on first use, then cached. */
    method GetStorage() returns (r: AppStorageSettings)
      modifies this
      ensures old(storage).Some? ==> r == old(storage).value
      ensures old(storage).None? ==> r == StorageOf(sessionStorage)
      ensures storage == Some(r)
      ensures bzz == old(bzz) && permissionDeniedID == old(permissionDeniedID)
      ensures bzzURL == old(bzzURL) && sandbox == old(sandbox)
    {
      if storage.None? {
        storage := Some(StorageOf(sessionStorage));
      }
      r := storage.value;
    }

    /** The `bzz` getter: built on first use from the gateway URL of that
        moment and the storage signer, then cached. */
    method GetBzz() returns (r: BzzApi)
      modifies this
      ensures old(bzz).Some? ==> r == old(bzz).value && storage == old(storage)
      ensures old(bzz).None? ==> storage.Some? && r == BzzApi(old(bzzURL), storage.value.feedKey)
      ensures old(storage).Some? ==> storage == old(storage)
      ensures bzz == Some(r)
      ensures permissionDeniedID == old(permissionDeniedID) && bzzURL == old(bzzURL) && sandbox == old(sandbox)
    {
      if bzz.None? {
        var s := GetStorage();
        bzz := Some(BzzApi(bzzURL, s.feedKey));
      }
      r := bzz.value;
    }

    /** `notifyTrusted(id, result)`: sends on the trusted channel only for a registered id. */
    method NotifyTrusted(id: string, result: JsValue)
      modifies context.window
      ensures var n := NotificationFor(context.subscriptions, id, result);
        context.window.sent == old(context.window.sent) + if n.Some? then [(AppTrustedChannel, n.value)] else []
    {
      if id in context.subscriptions {
        var n := NotificationFor(context.subscriptions, id, result);
        context.window.Send(AppTrustedChannel, n.value);
      }
    }

    /** `notifySandboxed(id, result)`: as above, to the sandbox if there is
        one; without one, only a console warning. */
    method NotifySandboxed(id: string, result: JsValue)
      modifies if sandbox.Some? then {sandbox.value} else {}
      ensures sandbox.Some? ==> var n := NotificationFor(context.subscriptions, id, result);
        sandbox.value.sent == old(sandbox.value.sent) + if n.Some? then [(AppSandboxedChannel, n.value)] else []
    {
      if sandbox.Some? && id in context.subscriptions {
        var n := NotificationFor(context.subscriptions, id, result);
        sandbox.value.Send(AppSandboxedChannel, n.value);
      }
    }

    /** The context's own subscriptions are well formed, the
        permission-denied id, once set, is one the id source has issued, and
        the only registered `permission_denied` subscription is that one. */
    ghost predicate Valid(ids: IdSource)
      reads this, context, ids, context.subscriptions.Values
    {
      && context.Valid()
      && (permissionDeniedID.Some? ==> permissionDeniedID.value in ids.issued)
      && forall k :: k in context.subscriptions && context.subscriptions[k].methodName == "permission_denied" ==>
           permissionDeniedID == Some(k)
    }

    /** `createPermissionDeniedSubscription()`: replaces the previous
        permission-denied subscription with a new one and remembers its id. */
    method CreatePermissionDeniedSubscription(ids: IdSource) returns (id: string)
      requires Valid(ids) && ids.Valid()
      modifies this, context, ids
      modifies if permissionDeniedID.Some? && permissionDeniedID.value in context.subscriptions
               then {context.subscriptions[permissionDeniedID.value]} else {}
      ensures Valid(ids) && ids.Valid()
      ensures permissionDeniedID == Some(id) && id in ids.issued && id !in old(ids.issued)
      ensures id in context.subscriptions && context.subscriptions[id].methodName == "permission_denied"
      ensures fresh(context.subscriptions[id])
      ensures var previous := if old(permissionDeniedID).Some? then {old(permissionDeniedID).value} else {};
        context.subscriptions == (old(context.subscriptions) - previous)[id := context.subscriptions[id]]
      ensures old(permissionDeniedID).Some? ==> old(permissionDeniedID).value !in context.subscriptions
      ensures bzz == old(bzz) && storage == old(storage) && bzzURL == old(bzzURL) && sandbox == old(sandbox)
    {
      if permissionDeniedID.Some? {
        context.RemoveSubscription(permissionDeniedID.value);
      }
      var sub := context.CreateSubscription(ids, "permission_denied", None);
      permissionDeniedID := Some(sub.id);
      id := sub.id;
    }

    /** `notifyPermissionDenied(result)`: a no-op until the subscription exists. */
    method NotifyPermissionDenied(result: JsValue)
      modifies context.window
      ensures permissionDeniedID.None? ==> context.window.sent == old(context.window.sent)
      ensures permissionDeniedID.Some? ==> var n := NotificationFor(context.subscriptions, permissionDeniedID.value, result);
        context.window.sent == old(context.window.sent) + if n.Some? then [(AppTrustedChannel, n.value)] else []
    {
      if permissionDeniedID.Some? {
        NotifyTrusted(permissionDeniedID.value, result);
      }
    }
  }

  class LauncherContext {
    const context: Context

    constructor(context: Context)
      ensures this.context == context
    {
      this.context := context;
    }

    /** `notify(id, result)`: sends on the launcher channel only for a registered id. */
    method Notify(id: string, result: JsValue)
      modifies context.window
      ensures var n := NotificationFor(context.subscriptions, id, result);
        context.window.sent == old(context.window.sent) + if n.Some? then [(LauncherChannel, n.value)] else []
    {
      if id in context.subscriptions {
        var n := NotificationFor(context.subscriptions, id, result);
        context.window.Send(LauncherChannel, n.value);
      }
    }
  }
}
