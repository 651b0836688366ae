/**
 * lib/storage.ts: every service record lives in one JSON document under a fixed key;
 * each mutation loads the whole document, changes `services` and writes it all back.
 */
module Storage {
  import opened Wrappers
  import opened Types
  import opened KeyValue

  const STORAGE_KEY: string := "car_service_state_v1"

  /**
   * The document `loadState` accepts: the parsed object itself when it is an object
   * with `services` present. None means `loadState` falls back to `DEFAULT_STATE`.
   */
  function Accepted(raw: Option<Stored>): (r: Option<PersistedState>)
    ensures r.Some? <==> raw.Some? && raw.value.Object? && raw.value.obj.services.Some?
    ensures r.Some? ==> raw == Some(Object(r.value))
  {
    match raw
    case Some(Object(obj)) => if obj.services.Some? then Some(obj) else None
    case _ => None
  }

  /**
   * What `loadState` returns when `getItem` gave `raw` and the shared default object
   * currently holds `defaults`. It never fails: every unusable content gives the default.
   */
  function LoadResult(raw: Option<Stored>, defaults: seq<ServiceRecord>): (s: PersistedState)
    // key absent, or the empty string stored
    ensures raw.None? || raw == Some(EmptyText) ==> s == DefaultStateWith(defaults)
    // content that does not parse, parses to null, or parses to a non-object
    ensures raw == Some(Unparseable) || raw == Some(JsonNull) || raw == Some(NonObject) ==>
              s == DefaultStateWith(defaults)
    // an object without `services`
    ensures raw.Some? && raw.value.Object? && raw.value.obj.services.None? ==> s == DefaultStateWith(defaults)
    // otherwise the parsed object, unchanged, extra fields included
    ensures raw.Some? && raw.value.Object? && raw.value.obj.services.Some? ==> s == raw.value.obj
  {
    Accepted(raw).GetOr(DefaultStateWith(defaults))
  }

  /** `saveState(s)` then `loadState()` gives `s` back, whatever the default holds. */
  lemma SaveLoadRoundTrip(s: PersistedState, defaults: seq<ServiceRecord>)
    ensures LoadResult(Some(Object(s)), defaults) == s
  {
  }

  /**
   * No schema migration happens on load: a document is returned with exactly the fields
   * it was stored with, so a document without `vehicles` stays without one, and a legacy
   * `vehicles` field rides along uninterpreted.
   */
  lemma NoVehiclesBackfill(doc: JsonObject, defaults: seq<ServiceRecord>)
    requires doc.services.Some?
    ensures "vehicles" in LoadResult(Some(Object(doc)), defaults).others <==> "vehicles" in doc.others
    ensures LoadResult(Some(Object(doc)), defaults).others == doc.others
  {
  }

  /** Whether some stored entry has the given id. */
  predicate HasId(services: seq<ServiceRecord>, id: string) {
    exists i :: 0 <= i < |services| && services[i].id == id
  }

  /** `services.map(s => s.id === u.id ? u : s)`. */
  function ReplaceById(services: seq<ServiceRecord>, u: ServiceRecord): (r: seq<ServiceRecord>)
    ensures |r| == |services|
    ensures forall i :: 0 <= i < |services| ==>
              r[i] == (if services[i].id == u.id then u else services[i])
  {
    if services == [] then []
    else [if services[0].id == u.id then u else services[0]] + ReplaceById(services[1..], u)
  }

  /** With no entry carrying `u.id`, the replacement changes nothing. */
  lemma ReplaceNoMatch(services: seq<ServiceRecord>, u: ServiceRecord)
    requires !HasId(services, u.id)
    ensures ReplaceById(services, u) == services
  {
  }

  /** After the replacement every entry carrying `u.id` is `u` itself. */
  lemma ReplaceLeavesOnlyUpdated(services: seq<ServiceRecord>, u: ServiceRecord)
    ensures forall x :: x in ReplaceById(services, u) && x.id == u.id ==> x == u
  {
    var r := ReplaceById(services, u);
    forall x | x in r && x.id == u.id
      ensures x == u
    {
      var i :| 0 <= i < |r| && r[i] == x;
    }
  }

  /** The updated record is stored exactly when some entry carried its id. */
  lemma ReplacePresentIffMatched(services: seq<ServiceRecord>, u: ServiceRecord)
    ensures u in ReplaceById(services, u) <==> HasId(services, u.id)
  {
    var r := ReplaceById(services, u);
    if HasId(services, u.id) {
      var i :| 0 <= i < |services| && services[i].id == u.id;
      assert r[i] == u;
    }
    if u in r {
      var i :| 0 <= i < |r| && r[i] == u;
      assert services[i].id == u.id;
    }
  }

  /** Replacing twice with the same record is replacing once. */
  lemma {:induction false} ReplaceIdempotent(services: seq<ServiceRecord>, u: ServiceRecord)
    ensures ReplaceById(ReplaceById(services, u), u) == ReplaceById(services, u)
  {
    if services != [] {
      ReplaceIdempotent(services[1..], u);
      assert ReplaceById(services, u)[1..] == ReplaceById(services[1..], u);
    }
  }

  /** `services.filter(s => s.id !== id)`. */
  function RemoveById(services: seq<ServiceRecord>, id: string): (r: seq<ServiceRecord>)
    ensures forall x :: x in r <==> x in services && x.id != id
    ensures |r| <= |services|
    ensures !HasId(services, id) ==> r == services
  {
    if services == [] then []
    else if services[0].id == id then RemoveById(services[1..], id)
    else
      assert !HasId(services, id) ==> !HasId(services[1..], id) by {
        if HasId(services[1..], id) {
          var i :| 0 <= i < |services[1..]| && services[1..][i].id == id;
          assert services[i + 1].id == id;
        }
      }
      [services[0]] + RemoveById(services[1..], id)
  }

  /** The filter keeps the original order: it distributes over concatenation. */
  lemma {:induction false} RemoveAppend(a: seq<ServiceRecord>, b: seq<ServiceRecord>, id: string)
    ensures RemoveById(a + b, id) == RemoveById(a, id) + RemoveById(b, id)
  {
    if a == [] {
      assert a + b == b;
    } else {
      assert (a + b)[0] == a[0];
      assert (a + b)[1..] == a[1..] + b;
      RemoveAppend(a[1..], b, id);
      if a[0].id != id {
        assert [a[0]] + RemoveById(a[1..], id) + RemoveById(b, id)
            == [a[0]] + (RemoveById(a[1..], id) + RemoveById(b, id));
      }
    }
  }

  /** The length drops by exactly the number of entries carrying `id` (all duplicates go). */
  function CountId(services: seq<ServiceRecord>, id: string): nat {
    if services == [] then 0
    else (if services[0].id == id then 1 else 0) + CountId(services[1..], id)
  }

  lemma {:induction false} RemoveLength(services: seq<ServiceRecord>, id: string)
    ensures |RemoveById(services, id)| == |services| - CountId(services, id)
  {
    if services != [] {
      RemoveLength(services[1..], id);
    }
  }

  /** Deleting twice is deleting once. */
  lemma RemoveIdempotent(services: seq<ServiceRecord>, id: string)
    ensures RemoveById(RemoveById(services, id), id) == RemoveById(services, id)
  {
  }

  /** Deleting the id of a record just added removes the added record too. */
  lemma RemoveAfterAdd(services: seq<ServiceRecord>, r: ServiceRecord)
    ensures RemoveById([r] + services, r.id) == RemoveById(services, r.id)
  {
    assert ([r] + services)[1..] == services;
  }

  /**
   * The store's state: the key-value storage and the shared `DEFAULT_STATE` object.
   * `loadState` returns that very object on every fallback, so a mutation made after a
   * defaulted load changes the default seen by every later defaulted load.
   */
  class ServiceStorage {
    const kv: KeyValueStore
    /** The current contents of `DEFAULT_STATE.services`. */
    var defaultServices: seq<ServiceRecord>

    constructor (kv: KeyValueStore)
      ensures this.kv == kv
      ensures defaultServices == DEFAULT_STATE.services.value
    {
      this.kv := kv;
      defaultServices := [];
    }

    /** What `getItem(STORAGE_KEY)` returns now. */
    function Raw(): Option<Stored>
      reads kv
    {
      Lookup(kv.items, STORAGE_KEY)
    }

    /** Whether `loadState` would now fall back to the shared default object. */
    predicate Defaulted()
      reads kv
    {
      Accepted(Raw()).None?
    }

    /** What `loadState` would return now. */
    function Current(): PersistedState
      reads this, kv
    {
      LoadResult(Raw(), defaultServices)
    }

    /** The `services` of what `loadState` would return now. */
    function Services(): seq<ServiceRecord>
      reads this, kv
    {
      Current().services.value
    }

    /** `loadState()`; `shared` tells whether the result is the `DEFAULT_STATE` object itself. */
    method LoadState() returns (s: PersistedState, shared: bool)
      ensures s == Current()
      ensures shared == Defaulted()
      ensures shared ==> s == DefaultStateWith(defaultServices)
    {
      var raw := Lookup(kv.items, STORAGE_KEY);
      match Accepted(raw)
      case Some(doc) =>
        s, shared := doc, false;
      case None =>
        s, shared := DefaultStateWith(defaultServices), true;
    }

    /** `saveState(s)`: writes the whole document under the fixed key and nowhere else. */
    method SaveState(s: PersistedState)
      modifies kv
      ensures kv.items == old(kv.items)[STORAGE_KEY := Object(s)]
      ensures UnchangedExcept(old(kv.items), kv.items, STORAGE_KEY)
      ensures Raw() == Some(Object(s))
    {
      kv.SetItem(STORAGE_KEY, Object(s));
    }

    /**
     * `addService(record)`: prepends with `unshift`, which mutates the loaded array in
     * place, and so mutates `DEFAULT_STATE` after a defaulted load. No id check is made.
     */
    method AddService(record: ServiceRecord)
      modifies this, kv
      ensures Services() == [record] + old(Services())
      ensures |Services()| == |old(Services())| + 1
      ensures kv.items == old(kv.items)[STORAGE_KEY := Object(old(Current()).(services := Some(Services())))]
      ensures UnchangedExcept(old(kv.items), kv.items, STORAGE_KEY)
      ensures defaultServices == if old(Defaulted()) then Services() else old(defaultServices)
    {
      var state, shared := LoadState();
      var services := [record] + state.services.value;
      if shared {
        defaultServices := services;
      }
      SaveState(state.(services := Some(services)));
    }

    /**
     * `updateService(updated)`: every entry with the same id becomes `updated`. The new
     * array is assigned to the loaded object's field, the shared default included.
     */
    method UpdateService(updated: ServiceRecord)
      modifies this, kv
      ensures Services() == ReplaceById(old(Services()), updated)
      ensures kv.items == old(kv.items)[STORAGE_KEY := Object(old(Current()).(services := Some(Services())))]
      ensures UnchangedExcept(old(kv.items), kv.items, STORAGE_KEY)
      ensures defaultServices == if old(Defaulted()) then Services() else old(defaultServices)
    {
      var state, shared := LoadState();
      var services := ReplaceById(state.services.value, updated);
      if shared {
        defaultServices := services;
      }
      SaveState(state.(services := Some(services)));
    }

    /** `deleteService(id)`: keeps exactly the entries whose id differs, in order. */
    method DeleteService(id: string)
      modifies this, kv
      ensures Services() == RemoveById(old(Services()), id)
      ensures kv.items == old(kv.items)[STORAGE_KEY := Object(old(Current()).(services := Some(Services())))]
      ensures UnchangedExcept(old(kv.items), kv.items, STORAGE_KEY)
      ensures defaultServices == if old(Defaulted()) then Services() else old(defaultServices)
    {
      var state, shared := LoadState();
      var services := RemoveById(state.services.value, id);
      if shared {
        defaultServices := services;
      }
      SaveState(state.(services := Some(services)));
    }
  }
}
