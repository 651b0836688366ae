/**
 * The add/edit service form of app/modal.tsx, without its rendering: loading the
 * record being edited, saving (with the reminder coordination) and deleting. The
 * notification capability is abstract: whether permission is granted and what the
 * scheduler returns are inputs, and every call the form makes is appended to a trace.
 */
module ServiceForm {
  import opened Wrappers
  import opened Types
  import opened KeyValue
  import opened Storage
  import opened JsText

  /** The choices the form offers for the service type. */
  const SERVICE_TYPES: seq<ServiceType> :=
    [OilChange, TireRotation, BrakeInspection, BatteryCheck, FluidTopUp, Custom]

  /** The list holds each of the six declared types once and nothing else. */
  lemma ServiceTypesListed(t: ServiceType)
    ensures t in SERVICE_TYPES <==> IsDeclared(t)
    ensures |SERVICE_TYPES| == 6
    ensures forall i, j :: 0 <= i < j < |SERVICE_TYPES| ==> SERVICE_TYPES[i] != SERVICE_TYPES[j]
  {
  }

  /** The calls the form makes on the notification capability and on the store. */
  datatype Event =
    | AskPermission                              // ensureNotificationPermissions()
    | Schedule(atIso: string, message: string)   // scheduleReminder(atIso, message)
    | Cancel(handle: Option<string>)             // cancelReminder(handle)
    | Add(record: ServiceRecord)                 // addService(record)
    | Update(record: ServiceRecord)              // updateService(record)
    | Delete(id: string)                         // deleteService(id)

  /** The form's text fields and the handle loaded with the edited record. */
  datatype Form = Form(
    vehicleName: string,
    serviceType: ServiceType,
    serviceDate: string,
    odometerKm: string,
    notes: string,
    nextReminder: string,
    notificationId: Option<string>)

  /** The fields as the form opens; `now` stands for `new Date().toISOString()`. */
  function InitialForm(now: string): Form {
    Form("", OilChange, now, "", "", "", None)
  }

  /** The route's `id` parameter is truthy: the form edits an existing record. */
  predicate IsEditing(editingId: Option<string>) {
    editingId.Some? && editingId.value != ""
  }

  /** `services.find(s => s.id === id)`: the first entry with that id. */
  function FindById(services: seq<ServiceRecord>, id: string): (r: Option<ServiceRecord>)
    ensures r.None? <==> !HasId(services, id)
    ensures r.Some? ==> exists i :: 0 <= i < |services| && services[i] == r.value
                                   && r.value.id == id && !HasId(services[..i], id)
  {
    if services == [] then None
    else if services[0].id == id then
      assert services[..0] == [];
      Some(services[0])
    else
      var r := FindById(services[1..], id);
      assert r.Some? ==> exists i :: 0 <= i < |services| && services[i] == r.value
                                   && r.value.id == id && !HasId(services[..i], id) by {
        if r.Some? {
          var k :| 0 <= k < |services[1..]| && services[1..][k] == r.value
                   && r.value.id == id && !HasId(services[1..][..k], id);
          assert services[..k + 1] == [services[0]] + services[1..][..k];
          assert services[k + 1] == r.value;
        }
      }
      r
  }

  /** The form fields the edit-load fills from a stored record. */
  function FormOf(rec: ServiceRecord): Form {
    Form(
      rec.vehicleName,
      rec.serviceType,
      rec.serviceDateIso,
      match rec.odometerKm case Some(n) => n.text case None => "",
      rec.notes.GetOr(""),
      rec.nextReminderIso.GetOr(""),
      rec.notificationId)
  }

  /**
   * The edit-load: with a truthy `editingId` and a stored record of that id, the form
   * takes the record's fields; otherwise every field keeps its value.
   */
  function EditLoad(f: Form, editingId: Option<string>, services: seq<ServiceRecord>): (g: Form)
    ensures !IsEditing(editingId) ==> g == f
    ensures IsEditing(editingId) && !HasId(services, editingId.value) ==> g == f
    ensures IsEditing(editingId) && HasId(services, editingId.value) ==>
              exists i :: 0 <= i < |services| && services[i].id == editingId.value
                          && !HasId(services[..i], editingId.value) && g == FormOf(services[i])
  {
    if !IsEditing(editingId) then f
    else match FindById(services, editingId.value)
      case Some(rec) => FormOf(rec)
      case None => f
  }

  /** `text || undefined`: the empty string is stored as absent. */
  function NonEmpty(text: string): (r: Option<string>)
    ensures r.None? <==> text == ""
    ensures r.Some? ==> r.value == text
  {
    if text == "" then None else Some(text)
  }

  /** The reminder's body; it uses the vehicle name as typed, before trimming. */
  function ReminderMessage(f: Form): string {
    Name(f.serviceType) + " reminder for " + f.vehicleName
  }

  /** The record `onSave` builds from the form, an id and the handle it settled on. */
  function BuildRecord(f: Form, id: string, handle: Option<string>): (r: ServiceRecord)
    // the vehicle name is stored trimmed
    ensures r.id == id && r.vehicleName == Trim(f.vehicleName)
    ensures r.serviceType == f.serviceType && r.serviceDateIso == f.serviceDate
    // empty text fields are stored as absent, non-empty ones as typed
    ensures r.odometerKm.None? <==> f.odometerKm == ""
    ensures r.odometerKm.Some? ==> r.odometerKm.value.text == f.odometerKm
    ensures r.notes.None? <==> f.notes == ""
    ensures r.nextReminderIso.None? <==> f.nextReminder == ""
    ensures r.notes.Some? ==> r.notes.value == f.notes
    ensures r.nextReminderIso.Some? ==> r.nextReminderIso.value == f.nextReminder
    ensures r.notificationId == handle
  {
    ServiceRecord(
      id,
      Trim(f.vehicleName),
      f.serviceType,
      f.serviceDate,
      if f.odometerKm == "" then None else Some(NumberFrom(f.odometerKm)),
      NonEmpty(f.notes),
      NonEmpty(f.nextReminder),
      handle)
  }

  /**
   * The capability calls a save makes before it writes: with a reminder date it asks
   * for permission, and schedules only if permission was granted.
   */
  function ReminderCalls(f: Form, granted: bool): (calls: seq<Event>)
    // no reminder date: no capability call at all
    ensures calls == [] <==> f.nextReminder == ""
    // a schedule call happens exactly when there is a date and permission
    ensures Schedule(f.nextReminder, ReminderMessage(f)) in calls <==> f.nextReminder != "" && granted
    // at most one schedule call, never a cancel call, never a store call
    ensures forall i, j :: 0 <= i < j < |calls| ==> !(calls[i].Schedule? && calls[j].Schedule?)
    ensures forall e :: e in calls ==> e == AskPermission || e == Schedule(f.nextReminder, ReminderMessage(f))
    // permission is asked before anything is scheduled
    ensures calls != [] ==> calls[0] == AskPermission
    // permission is asked once, and at most one schedule follows it
    ensures |calls| == (if f.nextReminder == "" then 0 else if granted then 2 else 1)
  {
    if f.nextReminder == "" then []
    else [AskPermission] + if granted then [Schedule(f.nextReminder, ReminderMessage(f))] else []
  }

  /**
   * The handle a save stores: with a reminder date and permission, the scheduler's result
   * (absent when it could not schedule); otherwise the handle loaded with the record.
   */
  function ReminderHandle(f: Form, granted: bool, scheduled: Option<string>): (h: Option<string>)
    ensures f.nextReminder == "" ==> h == f.notificationId
    ensures f.nextReminder != "" && granted ==> h == scheduled
    ensures f.nextReminder != "" && !granted ==> h == f.notificationId
    ensures h != f.notificationId ==> Schedule(f.nextReminder, ReminderMessage(f)) in ReminderCalls(f, granted)
  {
    if f.nextReminder != "" && granted then scheduled else f.notificationId
  }

  /**
   * The reminder step of `onSave`: start from the loaded handle and, when there is a
   * reminder date, ask for permission and, if granted, take the scheduler's result.
   */
  method CoordinateReminder(f: Form, granted: bool, scheduled: Option<string>)
    returns (calls: seq<Event>, notifId: Option<string>)
    ensures calls == ReminderCalls(f, granted)
    ensures notifId == ReminderHandle(f, granted, scheduled)
  {
    calls := [];
    notifId := f.notificationId;
    if f.nextReminder != "" {
      calls := calls + [AskPermission];
      if granted {
        calls := calls + [Schedule(f.nextReminder, ReminderMessage(f))];
        notifId := scheduled;
      }
    }
  }

  /** What `onSave` does: nothing for a blank vehicle name, else these calls and this record. */
  datatype SavePlan = Blank | Save(events: seq<Event>, record: ServiceRecord)

  /** The store call that ends a save: an update when editing, an add otherwise. */
  function StoreCall(editingId: Option<string>, record: ServiceRecord): Event {
    if IsEditing(editingId) then Update(record) else Add(record)
  }

  /**
   * The outcome of `onSave` for the form `f`, with `newId` for `Date.now()`, `granted`
   * for the permission answer and `scheduled` for the scheduler's result.
   */
  function PlanSave(f: Form, editingId: Option<string>, newId: string, granted: bool,
                    scheduled: Option<string>): (p: SavePlan)
    // a blank vehicle name schedules nothing and writes nothing
    ensures p.Blank? <==> IsBlank(f.vehicleName)
    // the id: the route's id when one was given (even an empty one), else a fresh one
    ensures p.Save? ==> p.record == BuildRecord(f, editingId.GetOr(newId), ReminderHandle(f, granted, scheduled))
    // the reminder calls, then exactly one store call: update when editing, add otherwise
    ensures p.Save? ==> p.events == ReminderCalls(f, granted) + [StoreCall(editingId, p.record)]
  {
    if Trim(f.vehicleName) == "" then Blank
    else
      var record := BuildRecord(f, editingId.GetOr(newId), ReminderHandle(f, granted, scheduled));
      Save(ReminderCalls(f, granted) + [StoreCall(editingId, record)], record)
  }

  /**
   * The calls `onDelete` makes: none without a truthy `editingId` or without the user's
   * confirmation; otherwise a cancel of the loaded handle and then the delete.
   */
  function DeleteCalls(editingId: Option<string>, handle: Option<string>, confirmed: bool): (calls: seq<Event>)
    ensures calls == [] <==> !IsEditing(editingId) || !confirmed
    ensures calls != [] ==> Cancel(handle) in calls && Delete(editingId.value) in calls
    ensures forall i, j :: 0 <= i < |calls| && 0 <= j < |calls| && calls[i].Cancel? && calls[j].Delete? ==> i < j
    // exactly those two calls, nothing else
    ensures calls != [] ==> |calls| == 2
  {
    if IsEditing(editingId) && confirmed then [Cancel(handle), Delete(editingId.value)] else []
  }

  /** The form screen; `storage` is the app's one service store. */
  class ServiceFormScreen {
    const editingId: Option<string>
    const storage: ServiceStorage
    var form: Form
    /** Every capability and store call the screen has made, oldest first. */
    var trace: seq<Event>

    constructor (editingId: Option<string>, storage: ServiceStorage, now: string)
      ensures this.editingId == editingId && this.storage == storage
      ensures form == InitialForm(now) && trace == []
    {
      this.editingId := editingId;
      this.storage := storage;
      form := InitialForm(now);
      trace := [];
    }

    /** The effect that runs when the screen opens (modal.tsx, lines 37-52). */
    method LoadForEdit()
      modifies this
      ensures form == EditLoad(old(form), editingId, storage.Services())
      ensures trace == old(trace)
    {
      if !IsEditing(editingId) {
        return;
      }
      var state, _ := storage.LoadState();
      var rec := FindById(state.services.value, editingId.value);
      if rec.Some? {
        form := FormOf(rec.value);
      }
    }

    /** `onSave`, with the abstract capability answers as parameters. */
    method OnSave(newId: string, granted: bool, scheduled: Option<string>) returns (saved: Option<ServiceRecord>)
      modifies this, storage, storage.kv
      ensures form == old(form)
      ensures match PlanSave(old(form), editingId, newId, granted, scheduled)
              case Blank =>
                saved.None? && trace == old(trace) && unchanged(storage, storage.kv)
              case Save(events, record) =>
                && saved == Some(record)
                && trace == old(trace) + events
                && storage.Services() ==
                     (if IsEditing(editingId) then ReplaceById(old(storage.Services()), record)
                      else [record] + old(storage.Services()))
                // the rest of the stored document is kept, and the shared default follows the store
                && storage.kv.items == old(storage.kv.items)[STORAGE_KEY := Object(old(storage.Current()).(services := Some(storage.Services())))]
                && storage.defaultServices == (if old(storage.Defaulted()) then storage.Services() else old(storage.defaultServices))
      ensures UnchangedExcept(old(storage.kv.items), storage.kv.items, STORAGE_KEY)
    {
      if Trim(form.vehicleName) == "" {
        assert PlanSave(form, editingId, newId, granted, scheduled) == Blank;
        return None;
      }
      var record := Submit(editingId.GetOr(newId), granted, scheduled);
      assert PlanSave(form, editingId, newId, granted, scheduled)
          == Save(ReminderCalls(form, granted) + [StoreCall(editingId, record)], record);
      saved := Some(record);
    }

    /** The steps of `onSave` after validation: the reminder, the record, the store call. */
    method Submit(id: string, granted: bool, scheduled: Option<string>) returns (record: ServiceRecord)
      modifies this, storage, storage.kv
      ensures form == old(form)
      ensures record == BuildRecord(form, id, ReminderHandle(form, granted, scheduled))
      ensures trace == old(trace) + (ReminderCalls(form, granted) + [StoreCall(editingId, record)])
      ensures storage.Services() ==
                if IsEditing(editingId) then ReplaceById(old(storage.Services()), record)
                else [record] + old(storage.Services())
      ensures storage.kv.items == old(storage.kv.items)[STORAGE_KEY := Object(old(storage.Current()).(services := Some(storage.Services())))]
      ensures storage.defaultServices == (if old(storage.Defaulted()) then storage.Services() else old(storage.defaultServices))
      ensures UnchangedExcept(old(storage.kv.items), storage.kv.items, STORAGE_KEY)
    {
      var calls, notifId := CoordinateReminder(form, granted, scheduled);
      record := BuildRecord(form, id, notifId);
      trace := trace + (calls + [StoreCall(editingId, record)]);
      Store(record);
    }

    /** The dispatch at the end of `onSave`: `updateService` when editing, else `addService`. */
    method Store(record: ServiceRecord)
      modifies storage, storage.kv
      ensures storage.Services() ==
                if IsEditing(editingId) then ReplaceById(old(storage.Services()), record)
                else [record] + old(storage.Services())
      ensures storage.kv.items == old(storage.kv.items)[STORAGE_KEY := Object(old(storage.Current()).(services := Some(storage.Services())))]
      ensures storage.defaultServices == (if old(storage.Defaulted()) then storage.Services() else old(storage.defaultServices))
      ensures UnchangedExcept(old(storage.kv.items), storage.kv.items, STORAGE_KEY)
    {
      if IsEditing(editingId) {
        storage.UpdateService(record);
      } else {
        storage.AddService(record);
      }
    }

    /** `onDelete`, with `confirmed` for the user's answer to the confirmation alert. */
    method OnDelete(confirmed: bool)
      modifies this, storage, storage.kv
      ensures form == old(form)
      ensures trace == old(trace) + DeleteCalls(editingId, form.notificationId, confirmed)
      ensures !IsEditing(editingId) || !confirmed ==> unchanged(storage, storage.kv)
      ensures IsEditing(editingId) && confirmed ==>
                && storage.Services() == RemoveById(old(storage.Services()), editingId.value)
                && storage.kv.items == old(storage.kv.items)[STORAGE_KEY := Object(old(storage.Current()).(services := Some(storage.Services())))]
                && storage.defaultServices == (if old(storage.Defaulted()) then storage.Services() else old(storage.defaultServices))
      ensures UnchangedExcept(old(storage.kv.items), storage.kv.items, STORAGE_KEY)
    {
      if !IsEditing(editingId) || !confirmed {
        return;
      }
      trace := trace + [Cancel(form.notificationId)];
      trace := trace + [Delete(editingId.value)];
      storage.DeleteService(editingId.value);
    }
  }

  /** After an add, the edit-load finds the added record under its id. */
  lemma FindAfterAdd(services: seq<ServiceRecord>, r: ServiceRecord)
    ensures FindById([r] + services, r.id) == Some(r)
  {
  }

  /** After an update of an existing id, the edit-load finds the new record under it. */
  lemma {:induction false} FindAfterUpdate(services: seq<ServiceRecord>, u: ServiceRecord)
    requires HasId(services, u.id)
    ensures FindById(ReplaceById(services, u), u.id) == Some(u)
  {
    if services[0].id != u.id {
      assert HasId(services[1..], u.id) by {
        var i :| 0 <= i < |services| && services[i].id == u.id;
        assert services[1..][i - 1].id == u.id;
      }
      FindAfterUpdate(services[1..], u);
      assert ReplaceById(services, u)[1..] == ReplaceById(services[1..], u);
    }
  }

  /** After a delete, the edit-load finds nothing under the deleted id. */
  lemma FindAfterDelete(services: seq<ServiceRecord>, id: string)
    ensures FindById(RemoveById(services, id), id).None?
  {
  }

  /**
   * Opening a stored record and saving it untouched, with no reminder date, writes the
   * same record back through an update and calls no scheduler, provided the record is
   * in the form the save itself produces (trimmed name, no empty optional text).
   */
  lemma ResaveUnchanged(rec: ServiceRecord, newId: string, granted: bool, scheduled: Option<string>)
    requires rec.id != "" && rec.vehicleName != "" && Trim(rec.vehicleName) == rec.vehicleName
    requires rec.notes != Some("") && rec.nextReminderIso.None? && rec.odometerKm != Some(NumberFrom(""))
    ensures PlanSave(FormOf(rec), Some(rec.id), newId, granted, scheduled) == Save([Update(rec)], rec)
  {
    var f := FormOf(rec);
    assert ReminderCalls(f, granted) == [];
    assert BuildRecord(f, rec.id, ReminderHandle(f, granted, scheduled)) == rec;
  }

  /**
   * The save path never releases a handle: editing a record whose reminder was scheduled
   * under handle `h`, with a reminder date and permission, stores the scheduler's new
   * result and makes no cancel call for `h`.
   */
  lemma RescheduleLeaksOldHandle(rec: ServiceRecord, h: string, newId: string, scheduled: Option<string>)
    requires rec.id != "" && !IsBlank(rec.vehicleName)
    requires rec.notificationId == Some(h) && rec.nextReminderIso.Some? && rec.nextReminderIso.value != ""
    ensures var p := PlanSave(FormOf(rec), Some(rec.id), newId, true, scheduled);
            p.Save? && p.record.notificationId == scheduled && Cancel(Some(h)) !in p.events
            && Schedule(rec.nextReminderIso.value, ReminderMessage(FormOf(rec))) in p.events
  {
    var f := FormOf(rec);
    assert Trim(f.vehicleName) != "";
    var calls := ReminderCalls(f, true);
    assert Cancel(Some(h)) !in calls;
  }

  /**
   * Clearing the reminder date of a scheduled record keeps its old handle in the saved
   * record and makes no cancel call.
   */
  lemma ClearingReminderKeepsHandle(rec: ServiceRecord, h: string, newId: string, granted: bool, scheduled: Option<string>)
    requires rec.id != "" && !IsBlank(rec.vehicleName) && rec.notificationId == Some(h)
    ensures var p := PlanSave(FormOf(rec).(nextReminder := ""), Some(rec.id), newId, granted, scheduled);
            p.Save? && p.record.nextReminderIso.None? && p.record.notificationId == Some(h)
            && p.events == [Update(p.record)]
  {
  }

  /** An `id` parameter that is present but empty saves a new record under the empty id. */
  lemma EmptyRouteIdAddsUnderEmptyId(f: Form, newId: string, granted: bool, scheduled: Option<string>)
    requires !IsBlank(f.vehicleName)
    ensures var p := PlanSave(f, Some(""), newId, granted, scheduled);
            p.Save? && p.record.id == "" && p.events[|p.events| - 1] == Add(p.record)
  {
  }
}
