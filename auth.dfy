/**
 * lib/auth.ts: a sign-in flag (with the signed-in user) kept as one JSON document
 * under its own key of the same key-value storage.
 */
module Auth {
  import opened Wrappers
  import opened Types
  import opened KeyValue
  import Storage

  const AUTH_STORAGE_KEY: string := "auth_state_v1"

  /** `AuthState` is structural: any object whose `isAuthenticated` is a boolean. */
  type AuthState = a: JsonObject | a.isAuthenticated.Some?
    witness JsonObject(None, Some(false), None, map[])

  /** The literal `{ isAuthenticated: false }`. */
  const SIGNED_OUT: AuthState := JsonObject(None, Some(false), None, map[])

  /** The state `signIn` builds: authenticated, with a user whose id is the clock text. */
  function SignedIn(userId: string, email: string): (a: AuthState)
    ensures a.isAuthenticated == Some(true)
    ensures a.user == Some(User(userId, None, email))
    ensures a.services.None? && a.others == map[]
  {
    JsonObject(None, Some(true), Some(User(userId, None, email)), map[])
  }

  /** What `loadAuth` returns when `getItem` gave `raw`. It never fails. */
  function LoadAuthResult(raw: Option<Stored>): (a: AuthState)
    // key absent, or the empty string stored
    ensures raw.None? || raw == Some(EmptyText) ==> a == SIGNED_OUT
    // content that does not parse, or parses to null or to a non-object
    ensures raw == Some(Unparseable) || raw == Some(JsonNull) || raw == Some(NonObject) ==> a == SIGNED_OUT
    // an object whose isAuthenticated is absent or not a boolean
    ensures raw.Some? && raw.value.Object? && raw.value.obj.isAuthenticated.None? ==> a == SIGNED_OUT
    // otherwise the parsed object, unchanged
    ensures raw.Some? && raw.value.Object? && raw.value.obj.isAuthenticated.Some? ==> a == raw.value.obj
  {
    match raw
    case Some(Object(obj)) => if obj.isAuthenticated.Some? then obj else SIGNED_OUT
    case _ => SIGNED_OUT
  }

  /** Only a stored object that says so can make `loadAuth` report a signed-in user. */
  lemma AuthenticatedOnlyFromStore(raw: Option<Stored>)
    requires LoadAuthResult(raw).isAuthenticated == Some(true)
    ensures raw == Some(Object(LoadAuthResult(raw)))
  {
  }

  /** `saveAuth(a)` then `loadAuth()` gives `a` back. */
  lemma SaveLoadAuthRoundTrip(a: AuthState)
    ensures LoadAuthResult(Some(Object(a))) == a
  {
  }

  /** `loadAuth()`: reads the storage and changes nothing. */
  method LoadAuth(kv: KeyValueStore) returns (a: AuthState)
    ensures a == LoadAuthResult(Lookup(kv.items, AUTH_STORAGE_KEY))
  {
    a := LoadAuthResult(Lookup(kv.items, AUTH_STORAGE_KEY));
  }

  /** `saveAuth(a)`: overwrites the auth key and leaves the service document alone. */
  method SaveAuth(kv: KeyValueStore, a: AuthState)
    modifies kv
    ensures kv.items == old(kv.items)[AUTH_STORAGE_KEY := Object(a)]
    ensures UnchangedExcept(old(kv.items), kv.items, AUTH_STORAGE_KEY)
    ensures Lookup(kv.items, Storage.STORAGE_KEY) == old(Lookup(kv.items, Storage.STORAGE_KEY))
  {
    kv.SetItem(AUTH_STORAGE_KEY, Object(a));
  }

  /**
   * `signIn(email, password)`: stores and returns an authenticated state. The password
   * is ignored; `userId` stands for `String(Date.now())`.
   */
  method SignIn(kv: KeyValueStore, email: string, password: string, userId: string) returns (a: AuthState)
    modifies kv
    ensures a == SignedIn(userId, email)
    ensures kv.items == old(kv.items)[AUTH_STORAGE_KEY := Object(a)]
    ensures Lookup(kv.items, Storage.STORAGE_KEY) == old(Lookup(kv.items, Storage.STORAGE_KEY))
    ensures LoadAuthResult(Lookup(kv.items, AUTH_STORAGE_KEY)).isAuthenticated == Some(true)
    ensures LoadAuthResult(Lookup(kv.items, AUTH_STORAGE_KEY)).user.value.email == email
  {
    a := JsonObject(None, Some(true), Some(User(userId, None, email)), map[]);
    SaveAuth(kv, a);
  }

  /** `signOut()`: stores the signed-out literal. */
  method SignOut(kv: KeyValueStore)
    modifies kv
    ensures kv.items == old(kv.items)[AUTH_STORAGE_KEY := Object(SIGNED_OUT)]
    ensures Lookup(kv.items, Storage.STORAGE_KEY) == old(Lookup(kv.items, Storage.STORAGE_KEY))
    ensures LoadAuthResult(Lookup(kv.items, AUTH_STORAGE_KEY)) == SIGNED_OUT
    ensures LoadAuthResult(Lookup(kv.items, AUTH_STORAGE_KEY)).user.None?
  {
    SaveAuth(kv, SIGNED_OUT);
  }

  /**
   * A sign-in followed by a sign-out, from any storage: the user ends signed out and
   * the service document is exactly what it was. Changes nothing the caller can see.
   */
  method SignInThenOut(items: map<string, Stored>, email: string, password: string, userId: string)
    returns (during: AuthState, after: AuthState, services: Option<Stored>)
    ensures during == SignedIn(userId, email)
    ensures after == SIGNED_OUT
    ensures services == Lookup(items, Storage.STORAGE_KEY)
  {
    var kv := new KeyValueStore(items);
    var _ := SignIn(kv, email, password, userId);
    during := LoadAuth(kv);
    SignOut(kv);
    after := LoadAuth(kv);
    services := Lookup(kv.items, Storage.STORAGE_KEY);
  }
}
