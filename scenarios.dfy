/**
 * End-to-end runs of the store and the form, each starting from fresh objects, so that
 * what the contracts of the separate operations add up to is stated and checked.
 */
module Scenarios {
  import opened Wrappers
  import opened Types
  import opened KeyValue
  import opened Storage
  import opened ServiceForm

  /** From empty storage, one add gives a one-record list. */
  method AddToEmptyStore(s1: ServiceRecord) returns (services: seq<ServiceRecord>)
    ensures services == [s1]
  {
    var kv := new KeyValueStore(map[]);
    var store := new ServiceStorage(kv);
    store.AddService(s1);
    var state, _ := store.LoadState();
    services := state.services.value;
  }

  /** New records are prepended: the most recent comes first. */
  method AddTwicePrepends(s1: ServiceRecord, s2: ServiceRecord) returns (services: seq<ServiceRecord>)
    ensures services == [s2, s1]
  {
    var kv := new KeyValueStore(map[]);
    var store := new ServiceStorage(kv);
    store.AddService(s1);
    store.AddService(s2);
    var state, _ := store.LoadState();
    services := state.services.value;
  }

  /**
   * The default object is shared: an add on empty storage puts the record into
   * `DEFAULT_STATE` itself, so once the stored text is later unreadable, `loadState`
   * falls back to a "default" that still holds the record.
   */
  method DefaultRemembersAdd(r: ServiceRecord) returns (services: seq<ServiceRecord>)
    ensures services == [r]
  {
    var kv := new KeyValueStore(map[]);
    var store := new ServiceStorage(kv);
    store.AddService(r);
    kv.SetItem(STORAGE_KEY, Unparseable);
    var state, shared := store.LoadState();
    assert shared;
    services := state.services.value;
  }

  /** The same add over an existing document leaves the default object empty. */
  method DefaultUntouchedByStoredAdd(existing: ServiceRecord, r: ServiceRecord) returns (services: seq<ServiceRecord>)
    ensures services == []
  {
    var kv := new KeyValueStore(map[STORAGE_KEY := Object(DefaultStateWith([existing]))]);
    var store := new ServiceStorage(kv);
    store.AddService(r);
    kv.SetItem(STORAGE_KEY, Unparseable);
    var state, _ := store.LoadState();
    services := state.services.value;
  }

  /**
   * Deleting an opened record: the screen cancels the record's handle first, then
   * deletes, and the record is gone from later loads.
   */
  method DeleteOpenedRecord(rec: ServiceRecord, now: string)
    returns (calls: seq<Event>, services: seq<ServiceRecord>)
    requires rec.id != ""
    ensures calls == [Cancel(rec.notificationId), Delete(rec.id)]
    ensures services == []
  {
    var kv := new KeyValueStore(map[STORAGE_KEY := Object(DefaultStateWith([rec]))]);
    var store := new ServiceStorage(kv);
    var screen := new ServiceFormScreen(Some(rec.id), store, now);
    screen.LoadForEdit();
    screen.OnDelete(true);
    calls := screen.trace;
    var state, _ := store.LoadState();
    services := state.services.value;
  }

  /**
   * Adding with a reminder date while permission is denied: the record keeps the date
   * and has no handle, and nothing is scheduled.
   */
  method AddWithDeniedPermission(vehicle: string, reminder: string, newId: string, now: string)
    returns (saved: Option<ServiceRecord>, calls: seq<Event>)
    requires !JsText.IsBlank(vehicle) && reminder != ""
    ensures saved.Some? && saved.value.nextReminderIso == Some(reminder) && saved.value.notificationId.None?
    ensures saved.value.id == newId
    ensures calls == [AskPermission, Add(saved.value)]
  {
    var kv := new KeyValueStore(map[]);
    var store := new ServiceStorage(kv);
    var screen := new ServiceFormScreen(None, store, now);
    screen.form := screen.form.(vehicleName := vehicle, nextReminder := reminder);
    saved := screen.OnSave(newId, false, None);
    calls := screen.trace;
  }

  /**
   * Opening a record scheduled under handle `h`, clearing its reminder date and saving:
   * no cancel call is made and the saved record still carries `h`.
   */
  method ClearReminderOfScheduledRecord(rec: ServiceRecord, h: string, newId: string, now: string)
    returns (saved: Option<ServiceRecord>, calls: seq<Event>)
    requires rec.id != "" && !JsText.IsBlank(rec.vehicleName) && rec.notificationId == Some(h)
    ensures saved.Some? && saved.value.nextReminderIso.None? && saved.value.notificationId == Some(h)
    ensures calls == [Update(saved.value)]
  {
    var kv := new KeyValueStore(map[STORAGE_KEY := Object(DefaultStateWith([rec]))]);
    var store := new ServiceStorage(kv);
    var screen := new ServiceFormScreen(Some(rec.id), store, now);
    assert store.Services() == [rec];
    screen.LoadForEdit();
    assert screen.form == FormOf(rec);
    screen.form := screen.form.(nextReminder := "");
    ClearingReminderKeepsHandle(rec, h, newId, true, None);
    var plan := PlanSave(screen.form, Some(rec.id), newId, true, None);
    assert plan.Save? && plan.events == [Update(plan.record)];
    saved := screen.OnSave(newId, true, None);
    assert saved == Some(plan.record);
    calls := screen.trace;
  }
}
