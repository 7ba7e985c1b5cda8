/** `AuthService`: login and register validate locally, post the request,
    and on an ok reply save the session before returning it; the rest
    delegates to the session store. */
module AuthService {
  import opened Js
  import opened LocalStorage
  import opened Validation
  import opened ApiConfig
  import opened Http
  import opened AuthResponseModel
  import LoginModel
  import RegistrationModel

  const LoginFallback := "Invalid username or password"
  const RegisterFallback := "Registration failed"

  /** One login or register call: the request sent, if any, the result, and
      the storage afterwards. */
  datatype AuthOutcome = AuthOutcome(sent: Option<Sent>, result: Result<AuthResponse>, storage: Storage)

  /** The request both calls send: a POST with the default headers (no
      token) and the serialised body. */
  function PostInit(body: Value, stringify: Value -> Value): map<string, Value> {
    map["method" := Str("POST"), "headers" := HeadersObject(DefaultHeaders), "body" := stringify(body)]
  }

  /** The sequence login and register share once `validate()` has run: an
      invalid request throws the joined messages without sending anything;
      otherwise the request goes out, a non-ok reply throws the backend's
      message or `fallback`, and an ok reply is mapped and saved. Storage
      changes only on success. */
  function Authenticate(validation: Result<Verdict>, url: string, body: Value, fallback: string,
                        st: Storage, reply: Reply, stringify: Value -> Value): (r: AuthOutcome)
    ensures validation.Throw? ==> r == AuthOutcome(None, Throw(validation.error), st)
    ensures validation.Ok? && !validation.value.isValid ==>
              r == AuthOutcome(None, Throw(Error(Summary(validation.value))), st)
    ensures validation.Ok? && validation.value.isValid ==> r.sent == Some(Sent(url, PostInit(body, stringify)))
    ensures r.result.Throw? ==> r.storage == st
    ensures r.result.Ok? ==> r.storage == Save(r.result.value, st)
    ensures r.result.Ok? ==>
              reply.Response? && reply.ok && reply.json.Some? && FromJson(reply.json.value) == Ok(r.result.value)
    ensures validation.Ok? && validation.value.isValid && reply.Response? && reply.json.Some? && !reply.ok ==>
              r.result == Throw(FailureError(reply.json.value, fallback))
    ensures validation.Ok? && validation.value.isValid && SilentFailure(reply) ==> r.result == Throw(Error(fallback))
  {
    match validation
    case Throw(e) => AuthOutcome(None, Throw(e), st)
    case Ok(verdict) =>
      if !verdict.isValid then AuthOutcome(None, Throw(Error(Summary(verdict))), st)
      else
        var sent := Some(Sent(url, PostInit(body, stringify)));
        match Complete(reply, fallback, FromJson)
        case Throw(e) => AuthOutcome(sent, Throw(e), st)
        case Ok(auth) => AuthOutcome(sent, Ok(auth), Save(auth, st))
  }

  /** `login(loginData)`. */
  function Login(loginData: LoginModel.Login, base: string, st: Storage, reply: Reply,
                 stringify: Value -> Value): (r: AuthOutcome)
    ensures r.sent.None? <==> LoginModel.Validate(loginData).Throw? || !LoginModel.Validate(loginData).value.isValid
    ensures LoginModel.Validate(loginData).Throw? ==> r.result == Throw(TypeError)
    ensures LoginModel.Validate(loginData).Ok? && !LoginModel.Validate(loginData).value.isValid ==>
              r.result == Throw(Error(Summary(LoginModel.Validate(loginData).value)))
    ensures r.sent.Some? && SilentFailure(reply) ==> r.result == Throw(Error("Invalid username or password"))
    ensures r.sent.Some? ==>
              r.sent.value == Sent(LoginUrl(base), PostInit(LoginModel.ToJson(loginData), stringify))
    ensures r.result.Throw? ==> r.storage == st
    ensures r.result.Ok? ==> r.storage == Save(r.result.value, st) && IsAuthenticated(r.storage)
  {
    Authenticate(LoginModel.Validate(loginData), LoginUrl(base), LoginModel.ToJson(loginData),
                 LoginFallback, st, reply, stringify)
  }

  /** `register(registrationData)`: the same sequence, with its own
      fallback message; success leaves the user logged in. */
  function Register(registration: RegistrationModel.Registration, base: string, st: Storage, reply: Reply,
                    stringify: Value -> Value): (r: AuthOutcome)
    ensures r.sent.None? <==>
              RegistrationModel.Validate(registration).Throw? || !RegistrationModel.Validate(registration).value.isValid
    ensures RegistrationModel.Validate(registration).Throw? ==> r.result == Throw(TypeError)
    ensures RegistrationModel.Validate(registration).Ok? && !RegistrationModel.Validate(registration).value.isValid ==>
              r.result == Throw(Error(Summary(RegistrationModel.Validate(registration).value)))
    ensures r.sent.Some? && SilentFailure(reply) ==> r.result == Throw(Error("Registration failed"))
    ensures r.sent.Some? ==>
              r.sent.value == Sent(RegisterUrl(base), PostInit(RegistrationModel.ToJson(registration), stringify))
    ensures r.result.Throw? ==> r.storage == st
    ensures r.result.Ok? ==> r.storage == Save(r.result.value, st) && IsAuthenticated(r.storage)
  {
    Authenticate(RegistrationModel.Validate(registration), RegisterUrl(base), RegistrationModel.ToJson(registration),
                 RegisterFallback, st, reply, stringify)
  }

  /** `logout()`. */
  function Logout(st: Storage): (r: Storage)
    ensures !IsAuthenticated(r)
    ensures GetCurrentUser(r).None?
    ensures forall k :: k in st && k !in SessionKeys ==> k in r && r[k] == st[k]
  {
    Clear(st)
  }

  /** `getCurrentUser()`: the session the store loads. */
  function GetCurrentUser(st: Storage): Option<AuthResponse> {
    Load(st)
  }

  /** `isAuthenticated()`: the store's answer, which looks at the token key
      only. */
  predicate IsLoggedIn(st: Storage) {
    AuthResponseModel.IsAuthenticated(st)
  }

  /** `getToken()`: the stored token string, or null. */
  function Token(st: Storage): (r: Value)
    ensures r.Str? <==> TokenKey in st
    ensures r.Str? ==> r.s == st[TokenKey]
    ensures !r.Str? ==> r == Null
    ensures r.Str? <==> IsLoggedIn(st)
  {
    GetToken(st)
  }

  // ---------------------------------------------------------------------------
  // Properties of the gateway

  /** The two "required" messages, joined as the thrown error shows them. */
  lemma BothRequiredSummary()
    ensures Summary(Verdict(false, [FieldError("username", LoginModel.UsernameRequired),
                                    FieldError("password", LoginModel.PasswordRequired)]))
         == LoginModel.UsernameRequired + ", " + LoginModel.PasswordRequired
  {
    var parts := [LoginModel.UsernameRequired, LoginModel.PasswordRequired];
    assert Messages([FieldError("username", LoginModel.UsernameRequired),
                     FieldError("password", LoginModel.PasswordRequired)]) == parts;
    assert Join(parts, ", ") == parts[0] + ", " + Join(parts[1..], ", ");
    assert parts[1..] == [LoginModel.PasswordRequired];
  }

  /** Blank credentials are refused before any request, with both messages
      when both are blank, and the storage is left alone. */
  lemma LoginRejectsBlankCredentials(username: string, password: string, base: string, st: Storage,
                                     reply: Reply, stringify: Value -> Value)
    requires AllSpace(username) && AllSpace(password)
    ensures var r := Login(LoginModel.Login(Str(username), Str(password)), base, st, reply, stringify);
      && r.sent.None?
      && r.storage == st
      && r.result == Throw(Error(LoginModel.UsernameRequired + ", " + LoginModel.PasswordRequired))
  {
    LoginModel.BlankCredentialsVerdict(username, password);
    BothRequiredSummary();
  }

  /** A non-ok reply to a request that went out throws the backend's
      message when it gives one, and `fallback` when it does not; the
      storage is left alone. */
  lemma FailedReplyMessage(validation: Result<Verdict>, url: string, body: Value, fallback: string,
                           st: Storage, props: map<string, Value>, status: int, statusText: string,
                           contentType: Option<string>, text: string, stringify: Value -> Value)
    requires validation.Ok? && validation.value.isValid
    ensures var r := Authenticate(validation, url, body, fallback, st,
                                  Response(false, status, statusText, contentType, Some(Obj(props)), text), stringify);
      && r.storage == st
      && ("message" in props && props["message"].Str? && props["message"].s != "" ==>
            r.result == Throw(Error(props["message"].s)))
      && ("message" !in props ==> r.result == Throw(Error(fallback)))
  {
  }

  /** A non-ok login reply throws the backend's message when it gives one,
      and "Invalid username or password" when it does not. */
  lemma LoginFailureMessage(username: string, password: string, base: string, st: Storage,
                            props: map<string, Value>, status: int, statusText: string,
                            contentType: Option<string>, text: string, stringify: Value -> Value)
    requires !AllSpace(username) && !AllSpace(password)
    ensures var r := Login(LoginModel.Login(Str(username), Str(password)), base, st,
                           Response(false, status, statusText, contentType, Some(Obj(props)), text), stringify);
      && r.storage == st
      && ("message" in props && props["message"].Str? && props["message"].s != "" ==>
            r.result == Throw(Error(props["message"].s)))
      && ("message" !in props ==> r.result == Throw(Error(LoginFallback)))
  {
    var login := LoginModel.Login(Str(username), Str(password));
    LoginModel.FilledCredentialsVerdict(username, password);
    FailedReplyMessage(LoginModel.Validate(login), LoginUrl(base), LoginModel.ToJson(login), LoginFallback,
                       st, props, status, statusText, contentType, text, stringify);
  }

  /** A non-ok reply to a registration that went out throws the backend's
      message when it gives one, and "Registration failed" when it does
      not; the storage is left alone. */
  lemma RegisterFailureMessage(registration: RegistrationModel.Registration, base: string, st: Storage,
                               props: map<string, Value>, status: int, statusText: string,
                               contentType: Option<string>, text: string, stringify: Value -> Value)
    ensures var r := Register(registration, base, st,
                              Response(false, status, statusText, contentType, Some(Obj(props)), text), stringify);
      && r.storage == st
      && (r.sent.Some? && "message" in props && props["message"].Str? && props["message"].s != "" ==>
            r.result == Throw(Error(props["message"].s)))
      && (r.sent.Some? && "message" !in props ==> r.result == Throw(Error(RegisterFallback)))
  {
    var reply := Response(false, status, statusText, contentType, Some(Obj(props)), text);
    var validation := RegistrationModel.Validate(registration);
    if validation.Ok? && validation.value.isValid {
      FailedReplyMessage(validation, RegisterUrl(base), RegistrationModel.ToJson(registration), RegisterFallback,
                         st, props, status, statusText, contentType, text, stringify);
    }
  }

  /** An ok login reply is stored before it is returned: afterwards the
      store reports the user as authenticated, hands back the reply's token
      (as a string), and the route guard lets the user through. */
  lemma LoginSuccessAuthenticates(loginData: LoginModel.Login, base: string, st: Storage,
                                  status: int, statusText: string, contentType: Option<string>,
                                  data: Value, text: string, stringify: Value -> Value)
    requires loginData.username.Str? && !AllSpace(loginData.username.s)
    requires loginData.password.Str? && !AllSpace(loginData.password.s)
    requires data.Obj?
    ensures var r := Login(loginData, base, st, Response(true, status, statusText, contentType, Some(data), text),
                           stringify);
      && r.result == Ok(AuthResponse(Field(data.props, "token"), Field(data.props, "username"),
                                     Field(data.props, "role")))
      && IsAuthenticated(r.storage)
      && GetToken(r.storage) == Str(ToStr(Field(data.props, "token")))
      && r.storage[FlagKey] == "true"
  {
    LoginModel.FilledCredentialsVerdict(loginData.username.s, loginData.password.s);
  }

  /** Once a request has gone out, an ok reply naming the user is saved
      and returned, for login and register alike. */
  lemma SentAndOkSavesSession(validation: Result<Verdict>, url: string, body: Value, fallback: string,
                              st: Storage, status: int, statusText: string, contentType: Option<string>,
                              token: string, username: string, role: string, text: string,
                              stringify: Value -> Value)
    ensures var data := Obj(map["token" := Str(token), "username" := Str(username), "role" := Str(role)]);
      var r := Authenticate(validation, url, body, fallback, st,
                            Response(true, status, statusText, contentType, Some(data), text), stringify);
      r.sent.Some? ==>
        && r.result == Ok(AuthResponse(Str(token), Str(username), Str(role)))
        && r.storage == Save(AuthResponse(Str(token), Str(username), Str(role)), st)
  {
    var data := Obj(map["token" := Str(token), "username" := Str(username), "role" := Str(role)]);
    assert FromJson(data) == Ok(AuthResponse(Str(token), Str(username), Str(role)));
  }

  /** Successful registration logs the user in: once the request has
      passed validation and gone out, an ok reply naming the user leaves the
      session saved and loadable, with no login step. */
  lemma RegisterSuccessLogsIn(registration: RegistrationModel.Registration, base: string, st: Storage,
                              status: int, statusText: string, contentType: Option<string>,
                              token: string, username: string, role: string, text: string,
                              stringify: Value -> Value)
    requires token != "" && username != "" && role != ""
    ensures var data := Obj(map["token" := Str(token), "username" := Str(username), "role" := Str(role)]);
      var r := Register(registration, base, st, Response(true, status, statusText, contentType, Some(data), text),
                        stringify);
      r.sent.Some? ==>
        && r.result == Ok(AuthResponse(Str(token), Str(username), Str(role)))
        && IsAuthenticated(r.storage)
        && GetCurrentUser(r.storage) == Some(AuthResponse(Str(token), Str(username), Str(role)))
  {
    SentAndOkSavesSession(RegistrationModel.Validate(registration), RegisterUrl(base),
                          RegistrationModel.ToJson(registration), RegisterFallback, st, status, statusText,
                          contentType, token, username, role, text, stringify);
    SaveThenLoadRoundTrip(token, username, role, st);
  }

  /** Logging out always ends the session, whatever came before. */
  lemma LogoutEndsSession(st: Storage)
    ensures !IsAuthenticated(Logout(st))
    ensures GetToken(Logout(st)) == Null
    ensures GetCurrentUser(Logout(st)) == None
  {
    ClearEndsSession(st);
  }
}
