/**
 * The older session store of `app/AuthContext.tsx`. It keeps the same
 * `user`, `isReady` and `auth.user` entry as `Session`, with two differences:
 * `setUser` writes the user's JSON text whatever the user is (also `null` or
 * a user without an id), and the launch effect has no `catch`, so a read that
 * rejects or a text that does not parse still raises `isReady` in `finally`
 * but leaves the launch effect's promise rejected.
 */
module LegacySession {
  import opened Wrappers
  import opened Json
  import opened JsValues
  import opened Storage
  import Session

  const StoreKey: string := Session.StoreKey

  /** The SecureStore entries after the older `setUser(u)`: always a write. */
  function PersistUser(entries: map<string, string>, u: Json): (r: map<string, string>)
    ensures StoreKey in r && Parse(r[StoreKey]) == Some(u)
    ensures forall k :: k != StoreKey ==> Stored(r, k) == Stored(entries, k)
  {
    RoundTrip(u);
    entries[StoreKey := Serialize(u)]
  }

  /** Whether the launch effect ends in an uncaught error. */
  predicate LoadRejects(readFails: bool, raw: Option<string>): (b: bool)
    ensures readFails ==> b
    ensures raw.None? || raw == Some("") ==> (b <==> readFails)
    ensures raw.Some? && Parse(raw.value).Some? ==> (b <==> readFails)
  {
    readFails || (raw.Some? && raw.value != "" && Parse(raw.value).None?)
  }

  /**
   * The older store reloads whatever was set, `null` and id-less users
   * included: `JSON.stringify(null)` is the non-empty text `null`, so the
   * launch effect parses it back.
   */
  lemma SetUserThenReload(entries: map<string, string>, u: Json, current: Json)
    ensures Session.LoadedUser(Stored(PersistUser(entries, u), StoreKey), current) == u
    ensures !LoadRejects(false, Stored(PersistUser(entries, u), StoreKey))
  {
    RoundTrip(u);
  }

  /**
   * Where the two stores part: for a user without an id the newer store
   * deletes `auth.user` while the older one persists the user, which a
   * relaunch then restores; with an id both write the same text.
   */
  lemma VariantsDifferExactlyOnIdless(entries: map<string, string>, u: Json, current: Json)
    ensures Session.PersistUser(entries, u) == PersistUser(entries, u) <==> Session.HasId(u)
    ensures !Session.HasId(u) ==>
      StoreKey !in Session.PersistUser(entries, u) &&
      Session.LoadedUser(Stored(PersistUser(entries, u), StoreKey), current) == u
  {
    if !Session.HasId(u) {
      assert StoreKey in PersistUser(entries, u);
      SetUserThenReload(entries, u, current);
    }
  }

  class AuthProvider {
    var user: Json
    var isReady: bool
    const secure: KeyValueStore

    constructor (secure: KeyValueStore)
      ensures this.secure == secure && user == JNull && !isReady
    {
      this.secure := secure;
      user := JNull;
      isReady := false;
    }

    /**
     * The launch effect: `try { ... } finally { setReady(true) }`. `rejected`
     * reports the error that escapes it; the in-memory user changes only when
     * a non-empty stored text parses.
     */
    method LoadStored(readFails: bool) returns (rejected: bool)
      modifies this
      ensures isReady
      ensures rejected == LoadRejects(readFails, Stored(secure.entries, StoreKey))
      ensures user == if readFails then old(user) else Session.LoadedUser(Stored(secure.entries, StoreKey), old(user))
    {
      rejected := false;
      if readFails {
        rejected := true;
      } else {
        var raw := secure.GetItem(StoreKey);
        if raw.Some? && raw.value != "" {
          var parsed := Parse(raw.value);
          if parsed.Some? {
            user := parsed.value;
          } else {
            rejected := true;
          }
        }
      }
      isReady := true;
    }

    /** `setUser(u)`: the user in memory and its JSON text on the device, unconditionally. */
    method SetUser(u: Json)
      modifies this, secure
      ensures user == u && isReady == old(isReady)
      ensures secure.entries == PersistUser(old(secure.entries), u)
    {
      user := u;
      secure.SetItem(StoreKey, Serialize(u));
    }

    /** `clearUser()`: signed out in memory and on the device. */
    method ClearUser()
      modifies this, secure
      ensures user == JNull && isReady == old(isReady)
      ensures secure.entries == old(secure.entries) - {StoreKey}
    {
      user := JNull;
      secure.RemoveItem(StoreKey);
    }
  }
}
