/**
 * The session store of `components/AuthContext.tsx`: the signed-in user held
 * in memory, an `isReady` flag raised once the launch effect has tried to
 * load a saved user, and one SecureStore entry under `auth.user` holding the
 * user as JSON text. Users are arbitrary JSON values (`null` is signed out).
 */
module Session {
  import opened Wrappers
  import opened Json
  import opened JsValues
  import opened Storage

  const StoreKey: string := "auth.user"

  /** `u && u.id != null`: a user the store keeps on the device. */
  predicate HasId(u: Json): (b: bool)
    ensures b <==> u.JObj? && !IsNullish(Lookup(u.members, "id"))
  {
    Truthy(Some(u)) &&
    match Prop(Some(u), "id")
    case Read(id) => !IsNullish(id)
    case TypeError => false
  }

  /** A user object whose `id` reads as a string, even the empty one, is kept. */
  lemma StringIdIsKept(ms: seq<Member>, id: string)
    requires Lookup(ms, "id") == Some(JStr(id))
    ensures HasId(JObj(ms))
  {
  }

  /**
   * The user the launch effect leaves in memory, given what the SecureStore
   * read resolved to: a non-empty stored text that parses replaces `current`;
   * a missing entry, an empty text or a text that does not parse leaves it.
   */
  function LoadedUser(raw: Option<string>, current: Json): (r: Json)
    ensures raw.None? ==> r == current
    ensures raw.Some? && Parse(raw.value).Some? ==> r == Parse(raw.value).value
    ensures raw.Some? && Parse(raw.value).None? ==> r == current
  {
    match raw
    case None => current
    case Some(text) =>
      if text == "" then current
      else match Parse(text)
        case Some(u) => u
        case None => current
  }

  /** The SecureStore entries after `setUser(u)`. */
  function PersistUser(entries: map<string, string>, u: Json): (r: map<string, string>)
    ensures StoreKey in r <==> HasId(u)
    ensures HasId(u) ==> Parse(r[StoreKey]) == Some(u)
    ensures forall k :: k != StoreKey ==> Stored(r, k) == Stored(entries, k)
  {
    RoundTrip(u);
    if HasId(u) then entries[StoreKey := Serialize(u)] else entries - {StoreKey}
  }

  /** The SecureStore entries after `clearUser()`. */
  function ClearedEntries(entries: map<string, string>): map<string, string> {
    entries - {StoreKey}
  }

  /**
   * Signing in then relaunching: after `setUser(u)` with an id, the launch
   * effect of a fresh provider reads `u` back, whatever user it started with.
   */
  lemma SetUserThenReload(entries: map<string, string>, u: Json, current: Json)
    requires HasId(u)
    ensures StoreKey in PersistUser(entries, u)
    ensures LoadedUser(Stored(PersistUser(entries, u), StoreKey), current) == u
  {
    RoundTrip(u);
  }

  /**
   * A user without an id is never persisted: after `setUser(u)` there is no
   * entry, so a relaunch keeps the signed-out starting state.
   */
  lemma SetUserWithoutIdForgets(entries: map<string, string>, u: Json, current: Json)
    requires !HasId(u)
    ensures StoreKey !in PersistUser(entries, u)
    ensures LoadedUser(Stored(PersistUser(entries, u), StoreKey), current) == current
  {
  }

  /** `setUser` writes or deletes `auth.user` and touches no other key. */
  lemma PersistUserOnlyTouchesKey(entries: map<string, string>, u: Json, k: string)
    requires k != StoreKey
    ensures Stored(PersistUser(entries, u), k) == Stored(entries, k)
  {
  }

  /** Clearing twice leaves the same entries as clearing once, and a relaunch then finds no user. */
  lemma ClearIdempotent(entries: map<string, string>, current: Json)
    ensures ClearedEntries(ClearedEntries(entries)) == ClearedEntries(entries)
    ensures LoadedUser(Stored(ClearedEntries(entries), StoreKey), current) == current
  {
  }

  class AuthProvider {
    var user: Json
    var isReady: bool
    const secure: KeyValueStore

    /** The provider's first render: no user, not ready. */
    constructor (secure: KeyValueStore)
      ensures this.secure == secure && user == JNull && !isReady
    {
      this.secure := secure;
      user := JNull;
      isReady := false;
    }

    /**
     * The launch effect. `readFails` is SecureStore's read rejecting; that
     * error, like a text that does not parse, is caught and logged. `isReady`
     * is raised in `finally`, so it is true on every path.
     */
    method LoadStored(readFails: bool)
      modifies this
      ensures isReady
      ensures user == if readFails then old(user) else LoadedUser(Stored(secure.entries, StoreKey), old(user))
    {
      if !readFails {
        var raw := secure.GetItem(StoreKey);
        if raw.Some? && raw.value != "" {
          var parsed := Parse(raw.value);
          if parsed.Some? {
            user := parsed.value;
          }
        }
      }
      isReady := true;
    }

    /** `setUser(u)`: the in-memory user becomes `u` even when it is not persisted. */
    method SetUser(u: Json)
      modifies this, secure
      ensures user == u && isReady == old(isReady)
      ensures secure.entries == PersistUser(old(secure.entries), u)
    {
      user := u;
      if !HasId(u) {
        secure.RemoveItem(StoreKey);
        return;
      }
      secure.SetItem(StoreKey, Serialize(u));
    }

    /** `clearUser()`: signed out in memory and on the device. */
    method ClearUser()
      modifies this, secure
      ensures user == JNull && isReady == old(isReady)
      ensures secure.entries == ClearedEntries(old(secure.entries))
    {
      user := JNull;
      secure.RemoveItem(StoreKey);
    }

    /** `signOut()` is `clearUser()`. */
    method SignOut()
      modifies this, secure
      ensures user == JNull && isReady == old(isReady)
      ensures secure.entries == ClearedEntries(old(secure.entries))
    {
      ClearUser();
    }
  }

  /**
   * A sign-in followed by a relaunch, run on the classes: a new provider over
   * the same SecureStore ends up ready and holding the user that was set.
   */
  method SignInThenRelaunch(secure: KeyValueStore, u: Json) returns (relaunched: AuthProvider)
    requires HasId(u)
    modifies secure
    ensures relaunched.isReady && relaunched.user == u
    ensures secure.entries == old(secure.entries)[StoreKey := Serialize(u)]
  {
    var first := new AuthProvider(secure);
    first.SetUser(u);
    relaunched := new AuthProvider(secure);
    SetUserThenReload(old(secure.entries), u, JNull);
    relaunched.LoadStored(false);
  }
}
