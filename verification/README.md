# mainframe-os trust core in Dafny

This project models the trust core of the Mainframe OS daemon and launcher, and proves properties of that model:

- **Permission resolution.** An installed app (`PeerApp`) carries a normalised `Manifest` (its required and optional `PermissionRequirements`) and per-user `UsersSettings` (stored `PermissionGrants` and the "permissions checked" flag). `createSession` refuses a user who has not confirmed the check. Otherwise it returns the app's required permissions and the user's grants, with every boolean capability that the manifest does not ask for denied.
- **Repositories.** `Repository.update` publishes a new immutable value only when the updater changed it. The settings repository (Swarm, PSS and Ethereum endpoints, chain id) and the apps repository (apps by id, and the index from canonical manifest id to app id) are built on it.
- **Contacts.** A contact's derived connection state is `sending`, `sent` or `connected`. It has a serialised form that round-trips.
- **Context events.** These are the tag filters, the debounced autosave, the rule that republishes a user's public feed, the rule that sends a contact request, and the registry of their subscriptions.
- **Vault file.** The KDF parameters come from defaults and options. A written file has metadata, which an open checks in a fixed order. Writing and then opening a file is a round trip.
- **Launcher contexts.** Each context is a registry of RPC subscriptions and sends their notifications. An app context also has a single permission-denied subscription and memoised storage and Swarm settings.
- **App RPC handlers.** `wallet_getEthAccounts` moves the default account to the front of the list, in place. `contacts_select` checks the user's answer and builds the approval list.

Values are kept in the source's own shape:

- A plain JavaScript value is a `Js.JsValue`.
- Immutable records are datatypes.
- The objects whose fields change are classes: the repositories, the registries, the vault handle and the file system.
- The in-place account reorder works on an `array`.

The model follows the semantics of Immutable 4, the version whose `RecordInstance` type `packages/daemon/src/store/repositories/Repository.js:3` imports: `set` of a key a Record does not declare does nothing, `toJSON` is shallow and emits every declared key, and a field given `undefined` reads as its default.

Two choices follow the code closely:

- A contact is `connected` when `contactFeed` is truthy (`packages/daemon/src/identity/Contact.js:114`), so an empty string does not count.
- `Repository.update` emits when `withMutations` returns a different record (`packages/daemon/src/store/repositories/Repository.js:10-13`). Immutable returns the same record when nothing changed, so the model emits when the new value differs, by value rather than by reference.

The field-name, manifest-shape and spread-order defects of the code are modelled as written, in the members named `…AsWritten`. The rest of the model uses the evidently intended behaviour (see Findings).

## Model

| member | source | states |
|---|---|---|
| Grants.WebRequestGrantsOf | packages/daemon/src/store/repositories/app/PermissionsGrants.js:5-14 | A nullish argument is a TypeError. Otherwise `denied` and `granted` are always lists: an array's items, empty when the field is absent. It succeeds exactly when both fields convert. |
| Grants.PermissionGrantsOf | packages/daemon/src/store/repositories/app/PermissionsGrants.js:17-27 | A nullish argument is a TypeError. `BLOCKCHAIN_SEND` is kept exactly as given, absent included. `WEB_REQUEST` always goes through the `WebRequestGrants` constructor. |
| Grants.GrantsIgnoreOtherKeys | packages/daemon/src/store/repositories/app/PermissionsGrants.js:17-20 | Two inputs that agree on `BLOCKCHAIN_SEND` and `WEB_REQUEST` give the same record, so no other key survives. |
| Requirements.PermissionRequirementsOf | packages/daemon/src/store/repositories/app/PermissionsRequirements.js:9-14 | A nullish argument is a TypeError. `BLOCKCHAIN_SEND` is copied unchanged. `WEB_REQUEST` becomes a list, empty when absent. |
| Requirements.RequirementsToJSON | packages/daemon/src/store/repositories/app/PermissionsRequirements.js:5-8 | `toJSON` always emits exactly the two declared keys, even when undefined. |
| Requirements.RequirementsGet | packages/daemon/src/store/repositories/app/PermissionsRequirements.js:5-8 | Reading an undeclared name on the record gives undefined. |
| Requirements.EmptyObjectGivesDefaults | packages/daemon/src/store/repositories/app/PermissionsRequirements.js:5-8 | An empty object gives the defaults: `BLOCKCHAIN_SEND` undefined and `WEB_REQUEST` empty. |
| Requirements.RequirementsIgnoreOtherKeys | packages/daemon/src/store/repositories/app/PermissionsRequirements.js:9-14 | Input keys other than the two declared ones are dropped. |
| Manifests.IdFromEntries | packages/daemon/src/store/repositories/app/Manifest.js:7-9 | Reading `[key, value]` entries into the author record: it is a TypeError exactly when some entry is truthy but not an object. With no `id` entry, `id` keeps its value. Otherwise the last `id` entry wins, whatever entries follow it. |
| Manifests.ManifestAuthorOf | packages/daemon/src/store/repositories/app/Manifest.js:7-9 | The author record keeps only `id`, `''` by default. A plain object gives its `id`, and a nullish argument gives the defaults. An array is read as `[key, value]` entries: it is a TypeError exactly when an entry is truthy but not an object, and otherwise the last `id` entry wins, whatever entries follow it, with `''` for an undefined value. A number or a boolean is a TypeError. |
| Manifests.EmptyAuthorArrayGivesDefaults | packages/daemon/src/store/repositories/app/Manifest.js:7-9 | An empty array gives the same default author as `undefined`. |
| Manifests.AuthorEntriesLastWins | packages/daemon/src/store/repositories/app/Manifest.js:7-9 | After any accepted entries, a final `['id', x]` gives the same author as `{id: x}`. |
| Manifests.AuthorKeepsOnlyId | packages/daemon/src/store/repositories/app/Manifest.js:7-9 | Two authors with the same `id` normalise to the same record. |
| Manifests.ManifestOf | packages/daemon/src/store/repositories/app/Manifest.js:19-28 | A nullish argument is a TypeError. `id`, `name`, `version` and `contentsURI` are copied, `''` when absent. `author` is normalised as `ManifestAuthorOf` does. `permissions` is normalised into its required and optional sets. |
| Users.GetIDs | packages/daemon/src/store/repositories/app/UsersSettings.js:29-32 | The result is the stored settings, not the user ids, with one entry per user: each settings value appears exactly as many times as there are users holding it, and the size is the number of users. |
| Users.GetSettings | packages/daemon/src/store/repositories/app/UsersSettings.js:34-36 | Returns the stored record, or the default record for an unknown user. |
| Users.SetSettings | packages/daemon/src/store/repositories/app/UsersSettings.js:38-43 | Replaces this user's record; every other user is unchanged. |
| Users.GetPermissions | packages/daemon/src/store/repositories/app/UsersSettings.js:45-50 | Returns nothing exactly when the user has no record, and otherwise the stored grants. |
| Users.SetPermissions | packages/daemon/src/store/repositories/app/UsersSettings.js:52-69 | Starts from the default record when there is none and replaces the grants. It changes the checked flag only when one is given. Other users are unchanged. |
| Users.GetPermission | packages/daemon/src/store/repositories/app/UsersSettings.js:71-73 | Returns one stored grant, or nothing when the user or the key is missing. |
| Users.SetPermission | packages/daemon/src/store/repositories/app/UsersSettings.js:75-81 | Sets one grant of one user and leaves the flag, the account and other users as they were. |
| Users.GetPermissionsChecked | packages/daemon/src/store/repositories/app/UsersSettings.js:83-85 | Returns the stored flag, false for an unknown user. |
| Users.SetPermissionsChecked | packages/daemon/src/store/repositories/app/UsersSettings.js:87-89 | Changes only this user's flag; an unknown user starts from the default record (see Left out). |
| Users.GetDefaultEthAccount | packages/daemon/src/store/repositories/app/UsersSettings.js:91-93 | Returns the stored account, nothing for an unknown user. |
| Users.SetDefaultEthAccount | packages/daemon/src/store/repositories/app/UsersSettings.js:95-101 | Stores `account` for this user only; an unknown user starts from the default record (see Left out). |
| Users.RemoveUser | packages/daemon/src/store/repositories/app/UsersSettings.js:103-105 | Deletes exactly that user's entry; the remaining entries are unchanged. |
| Users.GetAfterSet | packages/daemon/src/store/repositories/app/UsersSettings.js:52-101 | Each getter reads back what its setter stored. With no flag given, the flag stays as it was. |
| Users.DefaultEthAccountIgnoresWallet | packages/daemon/src/store/repositories/app/UsersSettings.js:95-101 | The result does not depend on `walletID`. |
| Users.SettersAreLocal | packages/daemon/src/store/repositories/app/UsersSettings.js:75-105 | No setter and no removal changes what another user reads. |
| Users.RemoveUserRestoresDefault | packages/daemon/src/store/repositories/app/UsersSettings.js:103-105 | After removal the user reads as unknown: the default settings, no grants, and unchecked. |
| Users.DefaultGrantsAsWritten | packages/daemon/src/store/repositories/app/UsersSettings.js:23 | The default `new AppPermissionsGrants()` throws a TypeError. So does the constructor given an empty object. |
| Users.DefaultGrantsFromEmptyWebRequest | packages/daemon/src/store/repositories/app/UsersSettings.js:23 | The default grant record used by the model is the constructor's result for an object with an empty `WEB_REQUEST`. |
| Users.CheckedFlagLostAsWritten | packages/daemon/src/store/repositories/app/UsersSettings.js:60-66 | With the spellings as written, a user who confirms the check still reads as unchecked, and the stored grants read as absent. |
| Users.SetSettingsLosesCheckAsWritten | packages/daemon/src/store/repositories/app/UsersSettings.js:38-43 | As written, `setSettings` drops the confirmation, because only `defaultEthAccount` is a declared key. |
| Users.CheckedFlagKept | packages/daemon/src/store/repositories/app/UsersSettings.js:52-69 | With one spelling, the confirmation and the grants read back after `setPermissions` and `setSettings`. |
| PeerApps.FromJSON | packages/daemon/src/store/repositories/app/PeerApp.js:40-49 | Succeeds exactly when the manifest normalises. `id` defaults to `''` and `installationState` to `'pending'`. |
| PeerApps.SetInstallationState | packages/daemon/src/store/repositories/app/PeerApp.js:51-53 | Sets the state and keeps `id`, `manifest` and `users`. An `undefined` state reads as the Record default `'pending'`. |
| PeerApps.SetSettings | packages/daemon/src/store/repositories/app/PeerApp.js:55-59 | Changes only `users`, by `UsersSettings.setSettings`. |
| PeerApps.SetPermissions | packages/daemon/src/store/repositories/app/PeerApp.js:61-69 | Changes only `users`, by `setPermissions`. |
| PeerApps.SetPermission | packages/daemon/src/store/repositories/app/PeerApp.js:71-79 | Changes only `users`, by `setPermission`. |
| PeerApps.SetPermissionsChecked | packages/daemon/src/store/repositories/app/PeerApp.js:81-85 | Changes only `users`, by `setPermissionsChecked`. |
| PeerApps.SetDefaultEthAccount | packages/daemon/src/store/repositories/app/PeerApp.js:87-95 | Changes only `users`, by `setDefaultEthAccount`. |
| PeerApps.RemoveUser | packages/daemon/src/store/repositories/app/PeerApp.js:97-101 | Changes only `users`, by `removeUser`. |
| PeerApps.AppPermissionsOf | packages/daemon/src/store/repositories/app/PeerApp.js:126-129 | The app side is the required `BLOCKCHAIN_SEND`, with `WEB_REQUEST` replaced by a grant of the required hosts. |
| PeerApps.StoredOrDefaultGrants | packages/daemon/src/store/repositories/app/PeerApp.js:131-135 | Returns the user's stored grants, or just an empty web-request grant when there are none. |
| PeerApps.CreateSession | packages/daemon/src/store/repositories/app/PeerApp.js:112-150 | Fails with "Permissions need to be checked by user" exactly when `hasCheckedPermissions` is false. A session carries the app's id and the user id. Its user grants deny every boolean key the manifest requests neither as required nor as optional, and keep the stored grant for every other key. |
| PeerApps.DenialBySilence | packages/daemon/src/store/repositories/app/PeerApp.js:137-142 | Example: for a manifest that requires only `BLOCKCHAIN_SEND`, a session denies another boolean capability the user granted and keeps the user's `BLOCKCHAIN_SEND` grant. |
| PeerApps.CheckingUnlocksSession | packages/daemon/src/store/repositories/app/PeerApp.js:103-110 | Confirming the check opens the session whatever the grants are. Unconfirmed, an app with something to grant is refused. |
| PeerApps.SessionUsesStoredGrants | packages/daemon/src/store/repositories/app/PeerApp.js:131-135 | A session starts from the grants last stored by `setPermissions`. |
| PeerApps.CreateSessionThrowsAsWritten | packages/daemon/src/store/repositories/app/PeerApp.js:118 | With the manifest shape as written, every session that passes the check throws a TypeError. |
| PeerApps.OptionalHidesRequiredAsWritten | packages/daemon/src/store/repositories/app/PeerApp.js:119-124 | As written, the merged manifest value of every key is the optional set's value. |
| PeerApps.RequiredSendDeniedAsWritten | packages/daemon/src/store/repositories/app/PeerApp.js:137-142 | Concrete case: `BLOCKCHAIN_SEND` required and no optional set. The merged value as written is falsy, although the key is requested. |
| Repositories.Repository.constructor | packages/daemon/src/store/repositories/Repository.js:6-8 | The initial value is current and is the only value published. |
| Repositories.Repository.Update | packages/daemon/src/store/repositories/Repository.js:9-14 | An unchanged value publishes nothing and stays current. A changed value becomes current and is published exactly once. The current value is always the last one published, and no publication repeats the previous one. |
| SettingsRepositories.SettingsRepository.constructor | packages/daemon/src/store/repositories/SettingsRepository.js:7-17 | Starts with the four defaults, with `ethChainID` 3. |
| SettingsRepositories.SettingsRepository.SetBzzURL | packages/daemon/src/store/repositories/SettingsRepository.js:19-23 | Goes through `update` and changes only `bzzURL`. |
| SettingsRepositories.SettingsRepository.SetPssURL | packages/daemon/src/store/repositories/SettingsRepository.js:25-29 | Goes through `update` and changes only `pssURL`. |
| SettingsRepositories.SettingsRepository.SetEthURL | packages/daemon/src/store/repositories/SettingsRepository.js:31-35 | Goes through `update` and changes only `ethURL`. |
| SettingsRepositories.SettingsRepository.SetEthChainID | packages/daemon/src/store/repositories/SettingsRepository.js:37-41 | Goes through `update` and changes only `ethChainID`. |
| SettingsRepositories.SetTwice | packages/daemon/src/store/repositories/SettingsRepository.js:19-23 | Setting the same URL twice publishes at most once. |
| AppsRepositories.PeerMap | packages/daemon/src/store/repositories/AppsRepository.js:22 | Succeeds exactly when every app's data decodes, and then holds exactly the input ids. |
| AppsRepositories.PeerMapValues | packages/daemon/src/store/repositories/AppsRepository.js:22 | Each id maps to `PeerApp.fromJSON` of its own data. |
| AppsRepositories.ByMfid | packages/daemon/src/store/repositories/AppsRepository.js:23-27 | The index holds exactly the canonical MFIDs of the input manifests. |
| AppsRepositories.ByMfidLastWins | packages/daemon/src/store/repositories/AppsRepository.js:23-27 | An MFID maps to the id of the last app in key order that has it. |
| AppsRepositories.Merged | packages/daemon/src/store/repositories/AppsRepository.js:29-32 | Entries under keys not in the input are kept, and keys in both maps take the new value. |
| AppsRepositories.AppsRepository.constructor | packages/daemon/src/store/repositories/AppsRepository.js:15-18 | Both maps start empty. |
| AppsRepositories.AppsRepository.SetPeerApps | packages/daemon/src/store/repositories/AppsRepository.js:21-33 | A decoding error leaves the repository untouched. Otherwise it makes one `update` with both maps merged in. The loop-built index equals the specification `ByMfid`. |
| AppsRepositories.SetPeerAppsIndexes | packages/daemon/src/store/repositories/AppsRepository.js:21-33 | After the merge every input app is stored under its id. Its MFID leads back to it unless a later app shares that MFID. |
| Contacts.NewContact | packages/daemon/src/identity/Contact.js:73-87 | Coerces `requestSent` to a boolean, which is true only when given as true, and keeps the other fields. |
| Contacts.Connection | packages/daemon/src/identity/Contact.js:113-116 | The state is `connected` exactly when `contactFeed` is truthy. Otherwise it is `sent` exactly when `requestSent` holds, and `sending` exactly when neither does. |
| Contacts.Name | packages/daemon/src/identity/Contact.js:109-111 | Returns `aliasName` when it is a non-empty string, otherwise `profile.name`. |
| Contacts.Create | packages/daemon/src/identity/Contact.js:26-40 | Uses the supplied `localID` when truthy, otherwise the fresh id. `requestSent` is false, so without a `contactFeed` the contact is `sending`. |
| Contacts.FromJSON | packages/daemon/src/identity/Contact.js:42-50 | Carries every field through; `requestSent` is true only when stored as true. |
| Contacts.ToJSON | packages/daemon/src/identity/Contact.js:52-59 | Carries every field through, with `requestSent` as stored. |
| Contacts.FromToJSON | packages/daemon/src/identity/Contact.js:42-59 | Loading what was saved gives the same contact. |
| Contacts.ToFromJSON | packages/daemon/src/identity/Contact.js:42-59 | Saving what was loaded gives the same record exactly when that record held `requestSent`. |
| Contacts.LocalIDGetterOverflows | packages/daemon/src/identity/Contact.js:89-91 | The `localID` getter as written exhausts the stack for every contact. |
| Contacts.ToJSONAsWrittenFails | packages/daemon/src/identity/Contact.js:52-59 | As written, serialising any contact throws a RangeError. |
| Contacts.Property | packages/daemon/src/identity/Contact.js:113-116 | Reading `connection` gives the state name. `_requestSent` gives the stored flag. `connectionState`, `requestSent`, `sharedFeed` and `generatefirstContactPayload`, which the class does not define, give undefined. |
| Contacts.MarkRequestSent | packages/daemon/src/context/ContextEvents.js:128 | The request flag becomes true and nothing else changes. |
| Contacts.HandshakeMonotone | packages/daemon/src/identity/Contact.js:113-116 | Marking the request as sent never moves the state backwards and always leaves `sending`. A non-empty contact feed makes the contact `connected`. |
| Events.VaultEventsDoNotSave | packages/daemon/src/context/ContextEvents.js:28-51 | No `vaultOpened` tag is a modifying tag, and there are exactly 13 modifying tags. |
| Events.SaveTimes | packages/daemon/src/context/ContextEvents.js:56 | A non-empty run of modifications always ends in a save 1000 ms after its last event. There are never more saves than events. |
| Events.BurstSavesOnce | packages/daemon/src/context/ContextEvents.js:56 | A burst whose events are each less than 1000 ms apart saves exactly once, 1000 ms after its last event. |
| Events.SpacedSavesEach | packages/daemon/src/context/ContextEvents.js:56 | Events at least 1000 ms apart each get their own save. |
| Events.SaveLog | packages/daemon/src/context/ContextEvents.js:56-62 | Each save is handled on its own, and a failure is logged, not raised. The log has exactly one "Failed to save vault: " entry per failed save, in order, each error appears in it, and it is empty exactly when no save failed. |
| Events.AutoSaveRun | packages/daemon/src/context/ContextEvents.js:54-63 | A save is attempted at each debounced time, the last one 1000 ms after the last modification. The log holds one entry per failed save and no more entries than saves. |
| Events.FailuresDoNotStopSaving | packages/daemon/src/context/ContextEvents.js:56-62 | The saves attempted are the same whatever the earlier saves' outcomes, so a failure does not end the subscription. |
| Events.FailuresLoggedOnePerSave | packages/daemon/src/context/ContextEvents.js:57-61 | When every save fails, the log has one entry per save. |
| Events.UserFeedStale | packages/daemon/src/context/ContextEvents.js:64-92 | The rule acts only on `user_created`, or on `user_changed` with `change` `profile`. It publishes and resyncs the user's feed. It emits one `publicFeed` change exactly when the resync says so. |
| Events.UserFeedStaleSettles | packages/daemon/src/context/ContextEvents.js:84-90 | The rule's own follow-up event never fires it again. |
| Events.ContactRequestNeverFiresAsWritten | packages/daemon/src/context/ContextEvents.js:97-102 | The filter as written, which reads `connectionState`, never passes an event. |
| Events.NewContactNotSentAsWritten | packages/daemon/src/context/ContextEvents.js:99-100 | Concrete case: a new contact in state `sending` passes the corrected filter but not the written one. |
| Events.ContactRequestSending | packages/daemon/src/context/ContextEvents.js:104-136 | Without a resolved user or peer, or outside the filter, nothing happens. Otherwise the rule publishes the shared data, resyncs, and publishes to the first-contact feed. It then marks the request sent and emits one `contact_changed` with `change` `requestSent` for that contact and `userID`. |
| Events.ContactRequestThrowsAsWritten | packages/daemon/src/context/ContextEvents.js:104-126 | As written, an event that passes the corrected filter, with the user and the peer resolved, throws a TypeError at `contact.sharedFeed`, before anything is published. Without a user or a peer the handler returns without effects. |
| Events.ContactRequestSettles | packages/daemon/src/context/ContextEvents.js:128-135 | The follow-up event never fires the corrected rule again. |
| Events.ContactRequestLoopsAsWritten | packages/daemon/src/context/ContextEvents.js:128 | The assignment as written leaves the contact `sending`. With the filter and lines 115 and 126 corrected, the follow-up would fire the rule again. |
| Events.ContextEvents.constructor | packages/daemon/src/context/ContextEvents.js:53-137 | Registers the three rules, open, under their keys. |
| Events.ContextEvents.AddSubscription | packages/daemon/src/context/ContextEvents.js:140-142 | Overwrites the key without unsubscribing the previous subscription. |
| Events.ContextEvents.RemoveSubscription | packages/daemon/src/context/ContextEvents.js:144-149 | Unsubscribes and keeps the key. |
| Events.ContextEvents.Clear | packages/daemon/src/context/ContextEvents.js:151-157 | Unsubscribes everything and empties the registry. |
| Vault.CreateVaultKeyParams | packages/daemon/src/fs/vault.js:52-72 | The KDF is Argon2id13 with the sensitive memlimit and opslimit, each overridable by the options. The salt is always the fresh one. The key is derived from exactly the recorded salt, opslimit, memlimit and algorithm. |
| Vault.DefaultKdf | packages/daemon/src/fs/vault.js:56-63 | Without options the KDF is the Argon2id13 sensitive preset with the fresh salt. |
| Vault.WrittenFile | packages/daemon/src/fs/vault.js:43-49 | The metadata is `{version: 1, kdf}`, and the body opens with the key to the data. |
| Vault.VaultFile.Write | packages/daemon/src/fs/vault.js:43-49 | Replaces the file at the vault's path. An omitted or `undefined` `data` is written as `{}`. |
| Vault.CreateVaultFile | packages/daemon/src/fs/vault.js:74-83 | Creates key parameters and writes `{}` at the path. |
| Vault.OpenVaultFile | packages/daemon/src/fs/vault.js:90-124 | Checks in order: "Missing metadata", then "Invalid vault format version", then "Missing KDF parameters in metadata". Only then is the key derived. A body that does not open is "Invalid password". Success returns the payload and the file's own `kdf`. |
| Vault.Open | packages/daemon/src/fs/vault.js:85-124 | Reads the file at the path and gives the result of the checks, with a new vault handle on success. |
| Vault.KeyRederived | packages/daemon/src/fs/vault.js:101-108 | An open derives again the key the parameters were created with. |
| Vault.WriteOpenRoundTrip | packages/daemon/src/fs/vault.js:120-123 | Opening with the same password after `write(data)` returns `data` and the same key parameters. |
| Vault.WrongPasswordRefused | packages/daemon/src/fs/vault.js:113-115 | Any other password gives "Invalid password". |
| Vault.ReopenKeepsKdf | packages/daemon/src/fs/vault.js:108 | Writes through a reopened vault keep the file's metadata, so the salt and cost parameters stay the same. |
| Vault.NeverInvalidFile | packages/daemon/src/fs/vault.js:116-118 | "Invalid file" is unreachable. |
| LauncherContexts.IdSource.Next | packages/launcher/src/main/contexts.js:33 | Every id handed out is new. |
| LauncherContexts.ContextSubscription.constructor | packages/launcher/src/main/contexts.js:32-36 | A subscription gets a fresh id and keeps its method and data. |
| LauncherContexts.NotificationFor | packages/launcher/src/main/contexts.js:142-151 | There is a notification exactly for a registered id. It is a JSON-RPC 2.0 message carrying the subscription's method and id. The result is the one given, or `{}` when it is omitted or `undefined`, as a default parameter gives. |
| LauncherContexts.Context.Clear | packages/launcher/src/main/contexts.js:54-60 | Disposes every registered subscription, leaves their data as it was, and removes none. |
| LauncherContexts.Context.SetSubscription | packages/launcher/src/main/contexts.js:62-64 | Registers under `sub.id`, replacing any entry with that id. |
| LauncherContexts.Context.CreateSubscription | packages/launcher/src/main/contexts.js:66-73 | Returns a new subscription with a fresh id, which is then registered. |
| LauncherContexts.Context.RemoveSubscription | packages/launcher/src/main/contexts.js:75-81 | Disposes and deletes a registered id. An unknown id changes nothing. |
| LauncherContexts.AppContext.GetStorage | packages/launcher/src/main/contexts.js:128-140 | Computes the storage settings on first use and returns the cached value afterwards. |
| LauncherContexts.AppContext.GetBzz | packages/launcher/src/main/contexts.js:118-126 | Builds the client on first use from the gateway URL of that moment and the storage signer. After that it returns the cached client. |
| LauncherContexts.AppContext.NotifyTrusted | packages/launcher/src/main/contexts.js:142-151 | Sends on the trusted channel only for a registered id. |
| LauncherContexts.AppContext.NotifySandboxed | packages/launcher/src/main/contexts.js:153-166 | Sends to the sandbox, if there is one, and only for a registered id. |
| LauncherContexts.AppContext.CreatePermissionDeniedSubscription | packages/launcher/src/main/contexts.js:168-175 | Removes the previous permission-denied subscription and registers a new one, which `permissionDeniedID` names. No other entry changes. It keeps the invariant that the id it remembers was issued by the id source, and that it names the only registered `permission_denied` subscription. |
| LauncherContexts.AppContext.NotifyPermissionDenied | packages/launcher/src/main/contexts.js:177-181 | Does nothing while no id is set. Otherwise it notifies that id on the trusted channel. |
| LauncherContexts.LauncherContext.Notify | packages/launcher/src/main/contexts.js:204-213 | Sends on the launcher channel only for a registered id. |
| AppRpc.IndexOf | packages/launcher/src/main/rpc/app.js:45 | Returns the position of the first occurrence. |
| AppRpc.WalletGetEthAccounts | packages/launcher/src/main/rpc/app.js:39-48 | Reorders the array in place into `DefaultFirst` of its old contents. |
| AppRpc.MoveToFront | packages/launcher/src/main/rpc/app.js:45-46 | In place, the element at the index comes first, the elements before it move one place down, and those after it stay where they were. |
| AppRpc.DefaultFirstPermutes | packages/launcher/src/main/rpc/app.js:39-47 | The result is a permutation of the same length. When the default is set and present, it comes first. |
| AppRpc.DefaultFirstKeepsOrder | packages/launcher/src/main/rpc/app.js:44-46 | Only the first occurrence moves. The accounts before it shift by one and those after it stay in place. |
| AppRpc.DefaultFirstIdempotent | packages/launcher/src/main/rpc/app.js:39-47 | Reordering twice is reordering once. |
| AppRpc.Approvals | packages/launcher/src/main/rpc/app.js:137-140 | Each selected id becomes `{localID: id, publicDataOnly: true}`, in order. |
| AppRpc.ContactsSelect | packages/launcher/src/main/rpc/app.js:131-140 | Gives `{contacts: []}` exactly when the answer is missing, not granted, or has no data or no selected ids. Otherwise it gives the approvals of the selected ids, or a TypeError when they are not an array. |
| AppRpc.ContactsSelectAsWrittenDiffers | packages/launcher/src/main/rpc/app.js:131 | The checks as written agree with the corrected ones except on a missing answer, where they throw a TypeError. |

## Left out

- The external `@mainframe/app-permissions` package is not part of this model:
  - `havePermissionsToGrant` and `PERMISSION_KEYS_BOOLEAN` are parameters (`AppPermissions.PermissionsLib`);
  - `createWebRequestGrant` grants the given hosts and denies none;
  - `mergeGrantsToDetails` pairs its inputs;
  - `createStrictPermissionGrants` is the identity on grants that are already strict.
- PeerApps.CreateSession: does not model that the source writes the denials into the stored grant object, which it reads without copying. The model's stored settings are not changed by a session.
- Users.SetPermission: Immutable's `setIn` under an unknown user creates a plain map rather than a `UserSettings` record. The model starts from the default record, as `setPermissions` does. For that user, the source's `getPermissions` then gives the plain map's `permissionsGrants` property (undefined), and its `getSettings` gives the plain map. The model gives the stored grant map and a full record.
- SetPermissionsChecked: under an unknown user, the source's `setIn` stores a plain map holding only `permissionsChecked`. The model stores the default record with the flag set. So for that user, `getPermissions` and `getPermission(u, 'WEB_REQUEST')` give undefined in the source, and the default grants in the model.
- SetDefaultEthAccount: under an unknown user, the source's `setIn` stores a plain map holding only `defaultEthAccount`. The model stores the default record with the account set. So for that user, `getPermissions` and `getPermission(u, 'WEB_REQUEST')` give undefined in the source, and the default grants in the model.
- PeerApps.FromJSON: the decoding of `users` (`new UsersSettings(data.users)`) is taken as already done.
- PeerApps.FromJSON: an app entry is a `PeerAppData` record, so a `null` or non-object entry cannot be expressed. On such an entry the source throws a TypeError at `data.id` (`packages/daemon/src/store/repositories/app/PeerApp.js:41-43`), and `setPeerApps` passes it on.
- Manifests.ManifestAuthorOf: an entry key is matched only when it is the string `'id'`. A key that JavaScript converts to `'id'`, such as `['id']`, and an object with an array-like `length`, which Immutable reads as entries, are not modelled.
- Contacts.Property: only the six names the daemon's rules read are modelled. The other getters (`peerID`, `name`, `profile`, `contactFeed`, `ownFeed`, `localID`) are the datatype's fields and `Contacts.Name`.
- AppsRepositories.AppsRepository.SetPeerApps: `MFID.canonical` is a total parameter. Its parse failures are not modelled. The input's order is taken to be `Object.keys` order.
- Repositories.Repository.Update: the comparison is value inequality, not reference identity. An updater that rebuilds an equal value is therefore taken to publish nothing.
- Repositories.Repository.Update: rxjs subscribers are not modelled; the published values are a sequence.
- The swarm feed (`OwnFeed`, `packages/daemon/src/swarm/feed.js`) is not part of this model. A feed is its key and topic, and its serialised form holds the same two values. `sharedFeed` and `generatefirstContactPayload` are not members of `Contact.js` (see Findings). In the corrected rule, the first-contact payload is a parameter and the shared-feed operations are named effects.
- Events.ContactRequestSending: the feed publishes, `syncManifest`, and the identity lookups (`getOwnUser`, `getPeerUser`) are parameters or named effects. Their failures and asynchrony are not modelled, and each rule is one atomic step.
- Events.UserFeedStale: `publishJSON` and `syncManifest` on the user's public feed are named effects. Their failures and asynchrony are not modelled.
- Events.SaveTimes: the debounce is a function of timestamps, not of real timers. An event arriving exactly 1000 ms after the previous one is taken to come after the pending save.
- Vault: Argon2id, the secret box, base64 and JSON are symbolic and exact. A key is the tuple it was derived from, so a box opens only with the key that sealed it. JSON's lossy cases (undefined, functions, cycles) and KDF failures on invalid parameters are not modelled.
- Vault.CreateVaultKeyParams: options are limited to `algorithm`, `memlimit` and `opslimit`. An option given as `undefined` and extra option keys, both of which the source copies into `kdf`, are not modelled.
- Vault.Open: the file-system error for a missing file is a single `FileNotFound`. Metadata whose `kdf` object lacks fields is not modelled.
- LauncherContexts: Electron windows are objects that record what was sent to them. `console.warn` in `notifySandboxed` is not modelled. The secp256k1 key pair, the address and the signer in the storage settings are taken to be determined by the feed key.
- `Js.ToList` treats only arrays, strings and nullish values as iterable. Other iterables given to Immutable's `List` are not modelled.

## Findings

| source | as written | input that shows it | evidently intended | confidence | as-written member | corrected member |
|---|---|---|---|---|---|---|
| packages/daemon/src/store/repositories/app/PeerApp.js:119-124 | The optional set is spread after the required one. `toJSON` emits every key, even undefined ones, so the optional value replaces the required one. | `BLOCKCHAIN_SEND: true` required and nothing optional: the merged value is undefined, and the required key is denied. | A key is requested when either set asks for it. | not executed; high | PeerApps.RequiredSendDeniedAsWritten | PeerApps.CreateSession |
| packages/daemon/src/store/repositories/app/UsersSettings.js:20-24 | The record declares `permissionChecked` and `permissionGrants`. The accessors use `permissionsGrants` and `permissionsChecked`. | `setPermissions(u, g, true)` followed by `getPermissionsChecked(u)` gives false, and `getPermissions(u)` gives undefined. | One spelling for each field. | not executed; high | Users.CheckedFlagLostAsWritten | Users.CheckedFlagKept |
| packages/daemon/src/store/repositories/app/UsersSettings.js:23 | The default grants are `new AppPermissionsGrants()`, and that constructor dereferences its argument. | No argument: `data.BLOCKCHAIN_SEND` on undefined throws a TypeError. The default is evaluated when the class is defined, so loading the module already throws. | A default record with empty web-request lists. | not executed; high | Users.DefaultGrantsAsWritten | Users.DefaultGrantsFromEmptyWebRequest |
| packages/daemon/src/store/repositories/app/Manifest.js:26 | The whole `permissions` object goes into one `PermissionRequirements`, which has no `required` or `optional`. | Any app with something to grant whose user has confirmed: `createSession` reads `.required.toJSON()` on undefined. | `required` and `optional` are normalised separately. | not executed; high | PeerApps.CreateSessionThrowsAsWritten | Manifests.ManifestOf |
| packages/daemon/src/identity/Contact.js:89-91 | The `localID` getter returns `this.localID`, which is itself. | `Contact.toJSON(c)` for any contact exhausts the stack. | The getter returns `this._localID`. | not executed; high | Contacts.ToJSONAsWrittenFails | Contacts.FromToJSON |
| packages/daemon/src/context/ContextEvents.js:100 | The filter tests `contact.connectionState`, which `Contact` does not define. | A new contact without `contactFeed`: its connection is `sending`, yet the filter reads undefined. | The filter tests `contact.connection`. | not executed; high | Events.ContactRequestNeverFiresAsWritten | Events.ContactRequestSending |
| packages/daemon/src/context/ContextEvents.js:115-126 | The handler calls `contact.sharedFeed.publishLocalData`, `contact.sharedFeed.syncManifest` and `contact.generatefirstContactPayload()`, none of which `Contact` defines. | Any `sending` contact with its user and peer resolved, with the filter corrected: reading `publishLocalData` of undefined throws a TypeError, so nothing is published. | `Contact` provides the shared feed and the first-contact payload. | not executed; high | Events.ContactRequestThrowsAsWritten | Events.ContactRequestSending |
| packages/daemon/src/context/ContextEvents.js:128 | The rule assigns `contact.requestSent`, which `Contact` does not define, and leaves `_requestSent` false. | Any `sending` contact, with the filter (line 100) and lines 115-126 corrected: the follow-up `contact_changed` still shows `sending` and fires the rule again. | The rule sets the stored flag, so the contact becomes `sent`. | not executed; high | Events.ContactRequestLoopsAsWritten | Events.ContactRequestSettles |
| packages/launcher/src/main/rpc/app.js:131 | `res.granted` is read before `!res` is tested. | A null answer gives a TypeError instead of `{contacts: []}`. | Test `res` first. | not executed; medium | AppRpc.ContactsSelectAsWrittenDiffers | AppRpc.ContactsSelect |
