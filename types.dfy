/**
 * The records of lib/types.ts (and the `User` record of lib/auth.ts), together with
 * the abstraction of a parsed JSON object that both stores read back.
 */
module Types {
  import opened Wrappers

  /**
   * The six service kinds the type declares. The form casts any typed text into the
   * type without checking it, so `Other` holds text that is none of the six names.
   */
  datatype ServiceType =
    | OilChange
    | TireRotation
    | BrakeInspection
    | BatteryCheck
    | FluidTopUp
    | Custom
    | Other(text: string)

  /** The literal string a service type stands for. */
  function Name(t: ServiceType): string {
    match t
    case OilChange => "Oil Change"
    case TireRotation => "Tire Rotation"
    case BrakeInspection => "Brake Inspection"
    case BatteryCheck => "Battery Check"
    case FluidTopUp => "Fluid Top-up"
    case Custom => "Custom"
    case Other(text) => text
  }

  /** A value holds one of the six declared names. */
  predicate IsDeclared(t: ServiceType) {
    !t.Other?
  }

  /** The canonical representation: `Other` never carries one of the six names. */
  predicate IsCanonical(t: ServiceType) {
    t.Other? ==> FromText(t.text).Other?
  }

  /** Reading a string typed into the form (`t as ServiceType`). */
  function FromText(text: string): (t: ServiceType)
    ensures Name(t) == text
    ensures t.Other? ==> t.text == text
  {
    if text == "Oil Change" then OilChange
    else if text == "Tire Rotation" then TireRotation
    else if text == "Brake Inspection" then BrakeInspection
    else if text == "Battery Check" then BatteryCheck
    else if text == "Fluid Top-up" then FluidTopUp
    else if text == "Custom" then Custom
    else Other(text)
  }

  /** Reading a canonical type's name gives the type back. */
  lemma FromTextName(t: ServiceType)
    requires IsCanonical(t)
    ensures FromText(Name(t)) == t
  {
  }

  /** The six declared names are pairwise distinct, so no two declared types share a name. */
  lemma DeclaredNamesDistinct(t: ServiceType, u: ServiceType)
    requires IsDeclared(t) && IsDeclared(u) && t != u
    ensures Name(t) != Name(u)
  {
  }

  /**
   * A JavaScript number, left opaque: the value `Number(text)` yields for the form
   * text it was read from.
   */
  datatype JsNumber = NumberFrom(text: string)

  /** One service event. `None` is an absent (undefined) optional field. */
  datatype ServiceRecord = ServiceRecord(
    id: string,
    vehicleName: string,
    serviceType: ServiceType,
    serviceDateIso: string,
    odometerKm: Option<JsNumber>,
    notes: Option<string>,
    nextReminderIso: Option<string>,
    notificationId: Option<string>)

  /** The signed-in user, declared in lib/auth.ts. */
  datatype User = User(id: string, name: Option<string>, email: string)

  /**
   * A parsed JSON object, reduced to the fields the app reads:
   * `services` is None when the field is absent or falsy, `isAuthenticated` is None
   * when the field is absent or not a boolean, and `others` keeps every other field
   * (a legacy `vehicles` array, say) as opaque JSON text.
   */
  datatype JsonObject = JsonObject(
    services: Option<seq<ServiceRecord>>,
    isAuthenticated: Option<bool>,
    user: Option<User>,
    others: map<string, string>)

  /**
   * `PersistedState` is structural: any object whose `services` is present. Its only
   * declared field is `services`; other fields ride along uninterpreted in `others`.
   */
  type PersistedState = s: JsonObject | s.services.Some?
    witness JsonObject(Some([]), None, None, map[])

  /** The object `DEFAULT_STATE` when its `services` array holds `services`. */
  function DefaultStateWith(services: seq<ServiceRecord>): (s: PersistedState)
    ensures s.services == Some(services)
    ensures s.isAuthenticated.None? && s.user.None? && s.others == map[]
  {
    JsonObject(Some(services), None, None, map[])
  }

  /** `DEFAULT_STATE` as declared, before anything has mutated it. */
  const DEFAULT_STATE: PersistedState := DefaultStateWith([])

  /** As declared, the default state holds no services and no other field. */
  lemma DefaultStateEmpty()
    ensures DEFAULT_STATE.services == Some([])
    ensures DEFAULT_STATE.others == map[]
  {
  }
}
