/** The session: `AuthResponseModel`, built from a login or register reply
    and kept in `localStorage` under four keys. */
module AuthResponseModel {
  import opened Js
  import opened LocalStorage

  datatype AuthResponse = AuthResponse(token: Value, username: Value, role: Value)

  const TokenKey := "authToken"
  const UsernameKey := "username"
  const RoleKey := "userRole"
  const FlagKey := "isAuthenticated"

  /** The four keys the session is written under. */
  const SessionKeys: set<string> := {TokenKey, UsernameKey, RoleKey, FlagKey}

  /** `AuthResponseModel.fromJSON(data)`: only token, username and role are
      kept, copied as they are (undefined when absent); nothing else of the
      reply, a userId included, survives. */
  function FromJson(data: Value): (r: Result<AuthResponse>)
    ensures r.Throw? <==> Nullish(data)
    ensures r.Throw? ==> r.error == TypeError
    ensures r.Ok? && data.Obj? ==>
              r.value == AuthResponse(Field(data.props, "token"), Field(data.props, "username"), Field(data.props, "role"))
    ensures r.Ok? && !data.Obj? ==> r.value == AuthResponse(Undefined, Undefined, Undefined)
  {
    var token :- Get(data, "token");
    Ok(AuthResponse(token, Get(data, "username").value, Get(data, "role").value))
  }

  /** `saveToStorage()`: the three fields as strings and the flag 'true';
      every other key keeps its value. */
  function Save(m: AuthResponse, st: Storage): (r: Storage)
    ensures r.Keys == st.Keys + SessionKeys
    ensures r[TokenKey] == ToStr(m.token)
    ensures r[UsernameKey] == ToStr(m.username)
    ensures r[RoleKey] == ToStr(m.role)
    ensures r[FlagKey] == "true"
    ensures forall k :: k in st && k !in SessionKeys ==> r[k] == st[k]
  {
    var st1 := SetItem(st, TokenKey, m.token);
    var st2 := SetItem(st1, UsernameKey, m.username);
    var st3 := SetItem(st2, RoleKey, m.role);
    SetItem(st3, FlagKey, Str("true"))
  }

  /** `AuthResponseModel.loadFromStorage()`: a session exactly when token,
      username and role are all stored and non-empty; any partial state reads
      as no session. The flag plays no part. */
  function Load(st: Storage): (r: Option<AuthResponse>)
    ensures r.Some? <==>
              && TokenKey in st && st[TokenKey] != ""
              && UsernameKey in st && st[UsernameKey] != ""
              && RoleKey in st && st[RoleKey] != ""
    ensures r.Some? ==> r.value == AuthResponse(Str(st[TokenKey]), Str(st[UsernameKey]), Str(st[RoleKey]))
  {
    var token := GetItem(st, TokenKey);
    var username := GetItem(st, UsernameKey);
    var role := GetItem(st, RoleKey);
    if Truthy(token) && Truthy(username) && Truthy(role) then Some(AuthResponse(token, username, role))
    else None
  }

  /** `AuthResponseModel.clearStorage()`: exactly the four session keys are
      removed. */
  function Clear(st: Storage): (r: Storage)
    ensures r.Keys == st.Keys - SessionKeys
    ensures forall k :: k in r ==> r[k] == st[k]
  {
    RemoveItem(RemoveItem(RemoveItem(RemoveItem(st, TokenKey), UsernameKey), RoleKey), FlagKey)
  }

  /** `AuthResponseModel.isAuthenticated()`: the token key is present,
      whatever its value, the empty string included. */
  predicate IsAuthenticated(st: Storage) {
    GetItem(st, TokenKey) != Null
  }

  /** `AuthResponseModel.getToken()`: the stored token, or null. */
  function GetToken(st: Storage): (r: Value)
    ensures r.Null? || r.Str?
    ensures r.Str? <==> IsAuthenticated(st)
    ensures r.Str? ==> TokenKey in st && r.s == st[TokenKey]
  {
    GetItem(st, TokenKey)
  }

  // ---------------------------------------------------------------------------
  // Properties of the store

  /** Loading after saving gives back the saved fields, as strings, exactly
      when none of them turns into the empty string. */
  lemma SaveThenLoad(m: AuthResponse, st: Storage)
    ensures var r := Load(Save(m, st));
      && (r.Some? <==> ToStr(m.token) != "" && ToStr(m.username) != "" && ToStr(m.role) != "")
      && (r.Some? ==> r.value == AuthResponse(Str(ToStr(m.token)), Str(ToStr(m.username)), Str(ToStr(m.role))))
  {
  }

  /** The round trip is exact for a session of non-empty strings. */
  lemma SaveThenLoadRoundTrip(token: string, username: string, role: string, st: Storage)
    requires token != "" && username != "" && role != ""
    ensures Load(Save(AuthResponse(Str(token), Str(username), Str(role)), st))
         == Some(AuthResponse(Str(token), Str(username), Str(role)))
  {
  }

  /** Saving always authenticates: a reply without a token stores the string
      "undefined", which `getToken` then returns. */
  lemma SaveWithoutTokenStillAuthenticates(m: AuthResponse, st: Storage)
    requires m.token.Undefined?
    ensures IsAuthenticated(Save(m, st))
    ensures GetToken(Save(m, st)) == Str("undefined")
  {
  }

  /** After `clearStorage` no session is left, by any of the three readers. */
  lemma ClearEndsSession(st: Storage)
    ensures !IsAuthenticated(Clear(st))
    ensures GetToken(Clear(st)) == Null
    ensures Load(Clear(st)) == None
  {
  }

  /** Clearing twice is clearing once. */
  lemma ClearIdempotent(st: Storage)
    ensures Clear(Clear(st)) == Clear(st)
  {
  }

  /** An empty token counts as authenticated, yet loads as no session. */
  lemma EmptyTokenAuthenticatedButNotLoaded(st: Storage)
    requires TokenKey in st && st[TokenKey] == ""
    ensures IsAuthenticated(st)
    ensures Load(st) == None
  {
  }
}
