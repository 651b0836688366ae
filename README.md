# Car service tracker: persisted records, form save/delete, sign-in flag

This project models the core of a personal vehicle-maintenance app in Dafny:

- **The service-record store** (`lib/storage.ts`). All records live in one JSON document
  under the key `car_service_state_v1` of the device's key-value storage. `loadState` falls
  back to the shared `DEFAULT_STATE` object whenever the stored content is unusable;
  `addService`, `updateService` and `deleteService` each load the whole document, change
  `services` (prepend, replace by id, filter by id) and write the whole document back.
  The storage is a class holding a `map<string, Stored>`. `Stored` abstracts what
  `getItem` can return: empty text, unparseable text, `null`, a non-object, or an object.
  An absent key is a key missing from the map.
- **The shared default object.** `loadState` returns `DEFAULT_STATE` itself, and
  `addService` mutates it with `unshift` while the two other operations reassign its field.
  `ServiceStorage.defaultServices` holds that array's current contents. So "the default is
  empty" holds only until the first mutation that follows a defaulted load
  (`Scenarios.DefaultRemembersAdd` shows the consequence).
- **The add/edit form** (`app/modal.tsx`, without rendering). The form loads the edited
  record (`LoadForEdit`), saves (`OnSave`) and deletes (`OnDelete`). The notification
  capability is abstract: the permission answer and the scheduler's result are parameters.
  Every capability or store call is appended to a `trace` of `Event`s, so the order of the
  calls can be stated. `OnSave` is proved against the specification function `PlanSave`,
  `OnDelete` against `DeleteCalls`, `LoadForEdit` against `EditLoad`.
- **The sign-in flag** (`lib/auth.ts`). The flag is a document under `auth_state_v1` in the
  same storage. `loadAuth` falls back to `{isAuthenticated: false}`, and `signIn`/`signOut`
  overwrite the key. None of them touches the service key.

Records and documents (`lib/types.ts`): `ServiceType` has the six declared names plus
`Other(text)`, because the form casts any typed text into the type. `ServiceRecord` has
four required fields and four `Option` fields. A parsed JSON object is a `JsonObject`
holding the fields the app reads and an opaque map of every other field. `PersistedState`
and `AuthState` are subset types of it. This follows TypeScript's structural typing: any
object with `services`, or with a boolean `isAuthenticated`, and extra fields are kept.

Behaviour of the code that a reader might not expect, which the model keeps:
- A load adds no field. There is no `vehicles` array, and a stored `vehicles` field is carried
  along untouched (`Storage.NoVehiclesBackfill`).
- The save path never cancels a handle. Clearing the reminder date keeps the old handle in
  the saved record (`ServiceForm.ClearingReminderKeepsHandle`). Rescheduling overwrites the
  handle without releasing the old one (`ServiceForm.RescheduleLeaksOldHandle`).
- So a record's `notificationId` can name a reminder for a date the record no longer holds;
  the model claims no invariant tying the two together.
- Only the form rejects a blank vehicle name (`PlanSave`). `addService` accepts any record
  and checks no id.

## Model

| member | source | states |
|---|---|---|
| Types.FromText | my-car-service-app/app/modal.tsx:128 | reading typed text as a service type gives back a value whose name is that text; unknown text becomes `Other(text)` |
| Types.FromTextName | my-car-service-app/lib/types.ts:1-7 | a canonical service type survives the trip to its name and back |
| Types.DeclaredNamesDistinct | my-car-service-app/lib/types.ts:1-7 | the six declared names are pairwise different |
| Types.DefaultStateWith | my-car-service-app/lib/types.ts:20-26 | the default object has `services` and no other field |
| Types.DefaultStateEmpty | my-car-service-app/lib/types.ts:24-26 | `DEFAULT_STATE` as declared has an empty `services` sequence and nothing else |
| KeyValue.Lookup | my-car-service-app/lib/storage.ts:8 | `getItem` yields a value exactly when the key is present, and that value |
| KeyValue.KeyValueStore.constructor | my-car-service-app/lib/storage.ts:1 | the device storage starts with the given contents |
| KeyValue.KeyValueStore.SetItem | my-car-service-app/lib/storage.ts:19 | `setItem` replaces the value of one key; every other key is unchanged |
| Storage.Accepted | my-car-service-app/lib/storage.ts:8-12 | a load keeps the stored content exactly when it parses to an object with `services` present |
| Storage.LoadResult | my-car-service-app/lib/storage.ts:6-16 | the default on an absent key or empty text, on unparseable content, `null` or a non-object, and on an object without `services`; otherwise the parsed object unchanged; it never fails |
| Storage.SaveLoadRoundTrip | my-car-service-app/lib/storage.ts:6-19 | `saveState(s)` then `loadState()` gives `s`, whatever the default holds |
| Storage.NoVehiclesBackfill | my-car-service-app/lib/storage.ts:10-12 | a load adds no field: no `vehicles` backfill, extra fields kept as stored |
| Storage.ReplaceById | my-car-service-app/lib/storage.ts:30 | same length and order; each entry with the updated id becomes the update, every other entry is unchanged |
| Storage.ReplaceNoMatch | my-car-service-app/lib/storage.ts:30 | with no entry of that id the sequence is unchanged |
| Storage.ReplaceLeavesOnlyUpdated | my-car-service-app/lib/storage.ts:30 | afterwards every entry with that id is the update (duplicates included) |
| Storage.ReplacePresentIffMatched | my-car-service-app/lib/storage.ts:30 | the update is stored iff some entry had its id |
| Storage.ReplaceIdempotent | my-car-service-app/lib/storage.ts:28-32 | updating twice with the same record equals updating once |
| Storage.RemoveById | my-car-service-app/lib/storage.ts:36 | the result holds exactly the entries whose id differs; with no match the sequence is unchanged |
| Storage.RemoveAppend | my-car-service-app/lib/storage.ts:36 | the filter keeps the original order (it distributes over concatenation) |
| Storage.RemoveLength | my-car-service-app/lib/storage.ts:36 | the length drops by the number of entries with that id: all duplicates go |
| Storage.RemoveIdempotent | my-car-service-app/lib/storage.ts:34-38 | deleting twice equals deleting once |
| Storage.RemoveAfterAdd | my-car-service-app/lib/storage.ts:22-38 | deleting the id of a just-added record also removes the added record |
| Storage.ServiceStorage.constructor | my-car-service-app/lib/types.ts:24-26 | the shared default starts with no services |
| Storage.ServiceStorage.LoadState | my-car-service-app/lib/storage.ts:6-16 | returns the load decision on the stored content; reports when the result is the shared default object |
| Storage.ServiceStorage.SaveState | my-car-service-app/lib/storage.ts:18-20 | writes the whole document under `car_service_state_v1` only |
| Storage.ServiceStorage.AddService | my-car-service-app/lib/storage.ts:22-26 | stored `services` becomes `[r] + old`, one longer, with no id check; only the service key is written; after a defaulted load the shared default is mutated too |
| Storage.ServiceStorage.UpdateService | my-car-service-app/lib/storage.ts:28-32 | stored `services` becomes the replace-by-id of the old; only the service key is written; the default is reassigned after a defaulted load |
| Storage.ServiceStorage.DeleteService | my-car-service-app/lib/storage.ts:34-38 | stored `services` becomes the filter-by-id of the old; only the service key is written; the default is reassigned after a defaulted load |
| Auth.SignedIn | my-car-service-app/lib/auth.ts:32-37 | the sign-in state is authenticated with user `{id, email}` and no name |
| Auth.LoadAuthResult | my-car-service-app/lib/auth.ts:16-26 | signed out on an absent key or empty text, on unparseable, `null` or non-object content, and on a non-boolean `isAuthenticated`; otherwise the stored object unchanged |
| Auth.AuthenticatedOnlyFromStore | my-car-service-app/lib/auth.ts:16-26 | `loadAuth` reports signed in only when the stored object itself says so |
| Auth.SaveLoadAuthRoundTrip | my-car-service-app/lib/auth.ts:16-30 | `saveAuth(a)` then `loadAuth()` gives `a` |
| Auth.LoadAuth | my-car-service-app/lib/auth.ts:16-26 | reads the auth key and returns the load decision on it |
| Auth.SaveAuth | my-car-service-app/lib/auth.ts:28-30 | overwrites `auth_state_v1` only; the service key is untouched |
| Auth.SignIn | my-car-service-app/lib/auth.ts:32-37 | returns and stores the signed-in state, ignoring the password; a later load is authenticated with that email; the service key is untouched |
| Auth.SignOut | my-car-service-app/lib/auth.ts:39-41 | stores the signed-out literal; a later load is unauthenticated with no user; the service key is untouched |
| Auth.SignInThenOut | my-car-service-app/lib/auth.ts:32-41 | signing in then out returns the signed-in state, then the signed-out literal, and leaves the stored service document as it was |
| JsText.TrimStart | my-car-service-app/app/modal.tsx:55 | drops exactly the leading whitespace |
| JsText.TrimEnd | my-car-service-app/app/modal.tsx:55 | drops exactly the trailing whitespace |
| JsText.Trim | my-car-service-app/app/modal.tsx:55 | the trimmed name has no whitespace at either end and is empty iff the name is blank |
| JsText.TrimIsSlice | my-car-service-app/app/modal.tsx:70 | the stored name is the slice of the typed name between a blank prefix and a blank suffix |
| JsText.TrimIdempotent | my-car-service-app/app/modal.tsx:70 | trimming a trimmed name changes nothing |
| ServiceForm.ServiceTypesListed | my-car-service-app/app/modal.tsx:10-17 | the form's list holds the six declared types, each once, and no `Other` |
| ServiceForm.FindById | my-car-service-app/app/modal.tsx:41 | none iff no entry has the id; otherwise the first entry with that id |
| ServiceForm.EditLoad | my-car-service-app/app/modal.tsx:37-52 | without a truthy id, or when no stored record has it, every field keeps its value; otherwise the form is `FormOf` the first record with that id, the field copies of lines 43-49 |
| ServiceForm.NonEmpty | my-car-service-app/app/modal.tsx:74-75 | empty text becomes absent, other text is kept |
| ServiceForm.BuildRecord | my-car-service-app/app/modal.tsx:68-77 | the saved record has the given id, the trimmed vehicle name, and absent odometer, notes and reminder when those fields are empty |
| ServiceForm.ReminderCalls | my-car-service-app/app/modal.tsx:58-66 | no capability call without a reminder date; otherwise ask permission once and first, then one schedule call (with the `ReminderMessage` text of line 63) only when granted, so one or two calls; never a cancel |
| ServiceForm.ReminderHandle | my-car-service-app/app/modal.tsx:57-66 | the loaded handle with no date or no permission; the scheduler's result, possibly absent, when granted |
| ServiceForm.CoordinateReminder | my-car-service-app/app/modal.tsx:57-66 | the step-by-step `notifId` update yields exactly those calls and that handle |
| ServiceForm.PlanSave | my-car-service-app/app/modal.tsx:54-83 | nothing happens iff the trimmed name is empty; otherwise the reminder calls, then one `StoreCall`: an update when the id is truthy, else an add (lines 79-83) |
| ServiceForm.DeleteCalls | my-car-service-app/app/modal.tsx:88-100 | no call without a truthy id or confirmation; otherwise exactly two calls, the cancel of the loaded handle strictly before the delete |
| ServiceForm.ServiceFormScreen.constructor | my-car-service-app/app/modal.tsx:20-29 | the form opens as `InitialForm`, the `useState` defaults of lines 23-29, with no handle and no calls |
| ServiceForm.ServiceFormScreen.LoadForEdit | my-car-service-app/app/modal.tsx:37-52 | the form becomes the edit-load of the stored services; no call is made |
| ServiceForm.ServiceFormScreen.OnSave | my-car-service-app/app/modal.tsx:54-86 | follows the save plan: with a blank name nothing is called or stored; otherwise the trace gains the reminder calls then the store call, the returned record is the built one, and the stored services are its replace-by-id (editing) or `[record] + old`; the rest of the stored document is kept and, after a defaulted load, the shared default holds the new services; the form fields are unchanged; only the service key is written |
| ServiceForm.ServiceFormScreen.Submit | my-car-service-app/app/modal.tsx:57-83 | the calls made and the record written are the reminder step, the built record and its store call; the service key holds the old document with the new services, and the shared default follows as in the storage operations |
| ServiceForm.ServiceFormScreen.Store | my-car-service-app/app/modal.tsx:79-83 | editing updates by id, otherwise the record is prepended; the service key holds the old document with only `services` changed; after a defaulted load the shared default holds the new services |
| ServiceForm.ServiceFormScreen.OnDelete | my-car-service-app/app/modal.tsx:88-100 | appends the delete calls; when they happen the stored services lose every entry with that id, the rest of the document is kept, and the shared default follows after a defaulted load; otherwise storage is unchanged |
| ServiceForm.FindAfterAdd | my-car-service-app/app/modal.tsx:41 | after an add, the edit-load finds the added record |
| ServiceForm.FindAfterUpdate | my-car-service-app/app/modal.tsx:41 | after an update of an existing id, the edit-load finds the new record |
| ServiceForm.FindAfterDelete | my-car-service-app/app/modal.tsx:41 | after a delete, the edit-load finds nothing under that id |
| ServiceForm.ResaveUnchanged | my-car-service-app/app/modal.tsx:40-83 | opening a normalised record without a reminder and saving it writes the same record back by update |
| ServiceForm.RescheduleLeaksOldHandle | my-car-service-app/app/modal.tsx:57-66 | re-saving a scheduled record with permission stores the new result and never cancels the old handle |
| ServiceForm.ClearingReminderKeepsHandle | my-car-service-app/app/modal.tsx:57-76 | clearing the date of a scheduled record keeps the old handle and makes no cancel |
| ServiceForm.EmptyRouteIdAddsUnderEmptyId | my-car-service-app/app/modal.tsx:69-83 | an empty route id is not "editing" but is used as the id: a new record is added under `""` |
| Scenarios.AddToEmptyStore | my-car-service-app/lib/storage.ts:22-26 | from empty storage one add gives `[s1]` |
| Scenarios.AddTwicePrepends | my-car-service-app/lib/storage.ts:22-26 | two adds give `[s2, s1]` |
| Scenarios.DefaultRemembersAdd | my-car-service-app/lib/storage.ts:6-26 | after an add on empty storage, an unreadable document loads as `[r]`, not `[]` |
| Scenarios.DefaultUntouchedByStoredAdd | my-car-service-app/lib/storage.ts:6-26 | an add over a stored document leaves the default empty |
| Scenarios.DeleteOpenedRecord | my-car-service-app/app/modal.tsx:88-100 | deleting an opened record cancels its handle, then deletes, and the record is gone |
| Scenarios.AddWithDeniedPermission | my-car-service-app/app/modal.tsx:54-86 | with permission denied the record keeps the date, has no handle, and nothing is scheduled |
| Scenarios.ClearReminderOfScheduledRecord | my-car-service-app/app/modal.tsx:37-86 | clearing the date of a scheduled record saves it with the old handle and no cancel |

## Left out

- JSON text. `JSON.stringify` and `JSON.parse` are abstracted: the model treats them as exact inverses on `JsonObject`. A `NaN` odometer stored as `null` and dropped `undefined` fields are not modelled. A truthy `services` value that is not an array is also not modelled: `Option` stands for "absent or falsy" versus an array.
- Storage failures. A rejected `getItem` also falls back to the default; the model has no read failure. A rejected `setItem` propagates to the caller, possibly after `DEFAULT_STATE` was already mutated; the model's writes always succeed.
- Concurrency. Each operation is atomic, so interleaved async read-modify-writes (last writer wins) are not modelled. Neither is the edit-load effect racing with user input.
- Clock and ids. `Date.now()` (the new record id, the user id) and `new Date().toISOString()` (the initial service date) are method parameters.
- Number conversion. `Number(odometerKm)` and `String(rec.odometerKm)` are not modelled: a `JsNumber` is the form text it was read from, so the edit-load gives that text back unchanged.
- Notifications. `lib/notifications.ts` is not part of this model: the permission answer and `scheduleReminder`'s result are inputs, and `cancelReminder` is a trace event. The scheduler may return no handle (an unparseable date) and cancel ignores an absent handle; no handle set is kept.
- UI. `listVehicles` and the vehicle suggestions (imported but not defined in the storage module shown) are not modelled. Neither are rendering, the `submitting` flag, `router.back()` and styles. The delete confirmation `Alert` is the `confirmed` parameter of `OnDelete`.
- Vehicles. Vehicle CRUD is not modelled: the code's `PersistedState` has no vehicles.
- ServiceType: a stored record may hold `Other(n)` with `n` one of the six declared names. JavaScript sees the same string as the declared type, but the two are different Dafny values. `FromText` always gives the declared value, but the storage operations do not restrict the types they accept. So record equality in `ReplacePresentIffMatched` and `ResaveUnchanged` is finer than the app's for such records.
- Trim. `trim` is modelled on Unicode code points; JavaScript strings are UTF-16, which only matters for unpaired surrogates (never whitespace).
