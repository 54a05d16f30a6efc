/**
 * The sign-in form of `app/login.tsx`: a username and a password, checked
 * locally, sent to the backend, and on success turned into the user record
 * the session store keeps.
 */
module Login {
  import opened Wrappers
  import opened Json
  import opened JsValues
  import opened Http
  import Storage
  import Session

  const DefaultFailure: string := "Login failed. Please check your credentials."
  const SuccessMessage: string := "Login successful!"

  /** `isValid`: a username with some non-blank character and a password of at least 6 characters. */
  predicate IsValid(username: string, password: string) {
    |Trim(username)| > 0 && |password| >= 6
  }

  /** The form is valid exactly when the username is not all white space and the password is long enough. */
  lemma IsValidIff(username: string, password: string)
    ensures IsValid(username, password) <==> !AllSpace(username) && |password| >= 6
  {
    TrimIsEmptyIff(username);
  }

  /** The request body: the trimmed username and the password as typed. */
  function LoginBody(username: string, password: string): Json {
    JObj([Member("username", JStr(Trim(username))), Member("password", JStr(password))])
  }

  /** The body's `username` reads as the trimmed input and its `password` as typed. */
  lemma LoginBodyFields(username: string, password: string)
    ensures var j := LoginBody(username, password);
      j.JObj? && Lookup(j.members, "username") == Some(JStr(Trim(username))) &&
      Lookup(j.members, "password") == Some(JStr(password))
  {
    var user := Member("username", JStr(Trim(username)));
    var pass := Member("password", JStr(password));
    assert user.key[0] != pass.key[0];
    LookupPair(user, pass);
  }

  /** `v != null ? Number(v) : null`; a `NaN` is kept as `null`. */
  function NullableNumber(v: Option<Json>): (r: Json)
    ensures IsNullish(v) ==> r == JNull
    ensures v.Some? && v.value.JNum? ==> r == v.value
  {
    if IsNullish(v) then JNull
    else match ToNumber(v)
      case Num(n) => JNum(n)
      case NaN => JNull
  }

  /** The members of a user record, in the order the sign-in writes them. */
  function UserMembers(id: string, name: string, username: string, height: Json, weight: Json, sex: string): seq<Member> {
    [Member("id", JStr(id)), Member("name", JStr(name)), Member("username", JStr(username)),
     Member("height", height), Member("weight", weight), Member("sex", JStr(sex))]
  }

  /** The user record built from the server's `data` and the username typed in. */
  function LoginUser(data: Json, typed: string): (u: Json)
    requires data != JNull
    ensures u.JObj? && Lookup(u.members, "id") == Some(JStr(StringOr(Field(data, "id"), "")))
    ensures Lookup(u.members, "username") == Some(JStr(StringOr(Field(data, "username"), Trim(typed))))
    ensures Lookup(u.members, "height") == Some(NullableNumber(Field(data, "height")))
    ensures Lookup(u.members, "weight") == Some(NullableNumber(Field(data, "weight")))
  {
    var id := StringOr(Field(data, "id"), "");
    var name := StringOr(Field(data, "name"), "");
    var username := StringOr(Field(data, "username"), Trim(typed));
    var height := NullableNumber(Field(data, "height"));
    var weight := NullableNumber(Field(data, "weight"));
    var sex := StringOr(Field(data, "sex"), "");
    UserMembersLookups(id, name, username, height, weight, sex);
    JObj(UserMembers(id, name, username, height, weight, sex))
  }

  /** Each property of a user record reads as the value written for it. */
  lemma UserMembersLookups(id: string, name: string, username: string, height: Json, weight: Json, sex: string)
    ensures var ms := UserMembers(id, name, username, height, weight, sex);
      Lookup(ms, "id") == Some(JStr(id)) && Lookup(ms, "username") == Some(JStr(username)) &&
      Lookup(ms, "height") == Some(height) && Lookup(ms, "weight") == Some(weight)
  {
    var ms := UserMembers(id, name, username, height, weight, sex);
    LookupAt(ms, 0);
    LookupAt(ms, 2);
    LookupAt(ms, 3);
    LookupAt(ms, 4);
  }

  /**
   * The user's `id` is `""` when the server sends none, and it is always a
   * string, never `null`: the session store persists every signed-in user.
   * Without a username from the server the user keeps the trimmed username
   * typed in; without a height or weight, those are `null`.
   */
  lemma LoginUserFields(data: Json, typed: string)
    requires data != JNull
    ensures var ms := LoginUser(data, typed).members;
      (IsNullish(Field(data, "id")) ==> Lookup(ms, "id") == Some(JStr(""))) &&
      (IsNullish(Field(data, "username")) ==> Lookup(ms, "username") == Some(JStr(Trim(typed)))) &&
      (IsNullish(Field(data, "height")) ==> Lookup(ms, "height") == Some(JNull)) &&
      (IsNullish(Field(data, "weight")) ==> Lookup(ms, "weight") == Some(JNull))
    ensures Session.HasId(LoginUser(data, typed))
  {
    var id := StringOr(Field(data, "id"), "");
    var ms := UserMembers(id, StringOr(Field(data, "name"), ""), StringOr(Field(data, "username"), Trim(typed)),
                          NullableNumber(Field(data, "height")), NullableNumber(Field(data, "weight")),
                          StringOr(Field(data, "sex"), ""));
    UserMembersLookups(id, StringOr(Field(data, "name"), ""), StringOr(Field(data, "username"), Trim(typed)),
                       NullableNumber(Field(data, "height")), NullableNumber(Field(data, "weight")),
                       StringOr(Field(data, "sex"), ""));
    assert LoginUser(data, typed) == JObj(ms);
    Session.StringIdIsKept(ms, id);
  }

  /**
   * The message a sign-in that reached the network ends with: the transport
   * error, the server's message or the default text for a failed status, the
   * TypeError of reading `id` of a `null` body, or the success text.
   */
  function LoginMessage(reply: Reply): (m: string)
    ensures reply.NetworkFailure? ==> m == reply.message
    ensures reply.Response? && !IsOk(reply) ==> m == ServerMessage(ResponseData(reply), DefaultFailure)
    ensures IsOk(reply) ==> (m == SuccessMessage <==> ResponseData(reply) != JNull)
  {
    match reply
    case NetworkFailure(m) => m
    case Response(_, _) =>
      var data := ResponseData(reply);
      if !IsOk(reply) then ServerMessage(data, DefaultFailure)
      else if data == JNull then TypeErrorMessage
      else SuccessMessage
  }

  /** The user handed to the session store: only an ok reply with a body other than `null` signs in. */
  function SignedInUser(reply: Reply, typed: string): (u: Option<Json>)
    ensures u.Some? <==> IsOk(reply) && ResponseData(reply) != JNull
  {
    if IsOk(reply) && ResponseData(reply) != JNull then Some(LoginUser(ResponseData(reply), typed)) else None
  }

  /** Only an ok reply signs the user in, with the success text; a failed one shows the server's message or the default text. */
  lemma LoginOutcomes(reply: Reply, typed: string)
    ensures SignedInUser(reply, typed).Some? ==> LoginMessage(reply) == SuccessMessage
    ensures SignedInUser(reply, typed).Some? ==> Session.HasId(SignedInUser(reply, typed).value)
    ensures reply.Response? && !IsOk(reply) ==>
      LoginMessage(reply) == ServerMessage(ResponseData(reply), DefaultFailure) && SignedInUser(reply, typed).None?
  {
    if SignedInUser(reply, typed).Some? {
      LoginUserFields(ResponseData(reply), typed);
    }
  }

  /**
   * The signed-in user and the SecureStore entries after a sign-in that
   * reached the network, from those before it: a signed-in user is always
   * written under `auth.user`, since its `id` is never missing; any other
   * outcome leaves both as they were.
   */
  function SessionAfter(reply: Reply, typed: string, user0: Json, entries0: map<string, string>)
    : (r: (Json, map<string, string>))
    ensures SignedInUser(reply, typed).Some? ==>
      r.0 == SignedInUser(reply, typed).value && r.1 == entries0[Session.StoreKey := Serialize(r.0)]
    ensures SignedInUser(reply, typed).None? ==> r == (user0, entries0)
  {
    LoginOutcomes(reply, typed);
    match SignedInUser(reply, typed)
    case Some(u) => (u, Session.PersistUser(entries0, u))
    case None => (user0, entries0)
  }

  /** After a successful sign-in, a relaunch of the app restores the signed-in user. */
  lemma SignInSurvivesRelaunch(reply: Reply, typed: string, user0: Json, entries0: map<string, string>, current: Json)
    requires SignedInUser(reply, typed).Some?
    ensures var r := SessionAfter(reply, typed, user0, entries0);
      Session.LoadedUser(Storage.Stored(r.1, Session.StoreKey), current) == r.0
  {
    var r := SessionAfter(reply, typed, user0, entries0);
    LoginOutcomes(reply, typed);
    Session.SetUserThenReload(entries0, r.0, current);
  }

  class LoginScreen {
    var username: string
    var password: string
    var serverMessage: string
    var isSubmitting: bool
    const auth: Session.AuthProvider

    constructor (auth: Session.AuthProvider)
      ensures this.auth == auth && username == "" && password == "" && serverMessage == "" && !isSubmitting
    {
      this.auth := auth;
      username := "";
      password := "";
      serverMessage := "";
      isSubmitting := false;
    }

    /**
     * `onLogin`: an invalid form or a sign-in in progress sends nothing and
     * changes nothing; otherwise `Submit` sends the form and handles the reply.
     */
    method OnLogin(reply: Reply) returns (sent: Option<Json>)
      modifies this, auth, auth.secure
      ensures username == old(username) && password == old(password) && auth.isReady == old(auth.isReady)
      ensures !IsValid(username, password) || old(isSubmitting) ==>
        sent == None && serverMessage == old(serverMessage) && isSubmitting == old(isSubmitting) &&
        auth.user == old(auth.user) && auth.secure.entries == old(auth.secure.entries)
      ensures IsValid(username, password) && !old(isSubmitting) ==>
        sent == Some(LoginBody(username, password)) && !isSubmitting &&
        serverMessage == LoginMessage(reply) &&
        (auth.user, auth.secure.entries) == SessionAfter(reply, username, old(auth.user), old(auth.secure.entries))
    {
      if !IsValid(username, password) || isSubmitting {
        return None;
      }
      sent := Submit(reply);
    }

    /**
     * The `try`/`catch`/`finally` of `onLogin`: the trimmed username and the
     * password are sent, the outcome's message is shown, the user signed in
     * on success, and `isSubmitting` is false again on every path.
     */
    method Submit(reply: Reply) returns (sent: Option<Json>)
      modifies this, auth, auth.secure
      ensures username == old(username) && password == old(password) && auth.isReady == old(auth.isReady)
      ensures sent == Some(LoginBody(username, password))
      ensures serverMessage == LoginMessage(reply) && !isSubmitting
      ensures (auth.user, auth.secure.entries) == SessionAfter(reply, username, old(auth.user), old(auth.secure.entries))
    {
      isSubmitting := true;
      sent := Some(LoginBody(username, password));
      serverMessage := LoginMessage(reply);
      var user := SignedInUser(reply, username);
      if user.Some? {
        auth.SetUser(user.value);
      }
      isSubmitting := false;
    }
  }
}
