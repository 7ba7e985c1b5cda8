/** `apiClient`: verb helpers over one `request` that attaches the auth
    headers, picks JSON or text for the body by content type, and turns a
    non-ok reply into an error. */
module ApiClient {
  import opened Js
  import opened LocalStorage
  import opened ApiConfig
  import opened Http

  /** The caller's `options` object: its own properties. */
  type Options = map<string, Value>

  /** `{ headers: getAuthHeaders(), ...options }`: the caller's properties
      are spread last, so a caller `headers` replaces the auth headers as a
      whole rather than being merged with them. */
  function RequestInit(options: Options, st: Storage): (r: map<string, Value>)
    ensures r.Keys == options.Keys + {"headers"}
    ensures forall k :: k in options ==> r[k] == options[k]
    ensures "headers" !in options ==> r["headers"] == HeadersObject(AuthHeaders(st))
  {
    map["headers" := HeadersObject(AuthHeaders(st))] + options
  }

  /** The body as `request` reads it: JSON exactly when the content-type
      header contains "application/json", text otherwise. */
  function ReadBody(reply: Reply): (r: Result<Value>)
    requires reply.Response?
    ensures reply.contentType.Some? && Includes(reply.contentType.value, "application/json") ==> r == ReadJson(reply)
    ensures !(reply.contentType.Some? && Includes(reply.contentType.value, "application/json")) ==>
              r == Ok(Str(reply.text))
  {
    if reply.contentType.Some? && Includes(reply.contentType.value, "application/json") then ReadJson(reply)
    else Ok(Str(reply.text))
  }

  /** `data?.message || data || \`HTTP ${status}: ${statusText}\``, made
      into a string by `new Error`. */
  function ErrorMessage(data: Value, status: int, statusText: string): (r: string)
    ensures Truthy(GetOptional(data, "message")) ==> r == ToStr(GetOptional(data, "message"))
    ensures !Truthy(GetOptional(data, "message")) && Truthy(data) ==> r == ToStr(data)
    ensures !Truthy(GetOptional(data, "message")) && !Truthy(data) ==>
              r == "HTTP " + ToStr(Num(status)) + ": " + statusText
  {
    ToStr(Or(Or(GetOptional(data, "message"), data), Str("HTTP " + ToStr(Num(status)) + ": " + statusText)))
  }

  /** `request(url, options)`: always sends; a non-ok reply throws with
      `ErrorMessage`, an ok reply returns the body unchanged. */
  function Request(url: string, options: Options, st: Storage, reply: Reply): (r: Exchange<Value>)
    ensures r.sent == Some(Sent(url, RequestInit(options, st)))
    ensures reply.Unreachable? ==> r.result == Throw(FetchFailed)
    ensures reply.Response? && ReadBody(reply).Throw? ==> r.result == ReadBody(reply)
    ensures reply.Response? && ReadBody(reply).Ok? && reply.ok ==> r.result == ReadBody(reply)
    ensures reply.Response? && ReadBody(reply).Ok? && !reply.ok ==>
              r.result == Throw(Error(ErrorMessage(ReadBody(reply).value, reply.status, reply.statusText)))
  {
    var sent := Some(Sent(url, RequestInit(options, st)));
    match reply
    case Unreachable => Exchange(sent, Throw(FetchFailed))
    case Response(ok, status, statusText, _, _, _) =>
      match ReadBody(reply)
      case Throw(e) => Exchange(sent, Throw(e))
      case Ok(data) =>
        if !ok then Exchange(sent, Throw(Error(ErrorMessage(data, status, statusText))))
        else Exchange(sent, Ok(data))
  }

  /** The init a verb helper passes on: its method (and serialised body),
      then the caller's options, which win on every key they carry. */
  function VerbInit(verb: string, body: Option<Value>, options: Options): (r: Options)
    ensures r.Keys == options.Keys + {"method"} + (if body.Some? then {"body"} else {})
    ensures forall k :: k in options ==> r[k] == options[k]
    ensures "method" !in options ==> r["method"] == Str(verb)
    ensures body.Some? && "body" !in options ==> r["body"] == body.value
    ensures body.None? && "body" !in options ==> "body" !in r
  {
    var own := if body.Some? then map["method" := Str(verb), "body" := body.value] else map["method" := Str(verb)];
    own + options
  }

  /** `get(url, options)`. */
  function Get(url: string, options: Options, st: Storage, reply: Reply): (r: Exchange<Value>)
    ensures r.sent.Some? && r.sent.value.url == url
    ensures r.sent.value.init.Keys == options.Keys + {"method", "headers"}
    ensures "method" !in options ==> r.sent.value.init["method"] == Str("GET")
    ensures "body" !in options ==> "body" !in r.sent.value.init
    ensures "headers" !in options ==> r.sent.value.init["headers"] == HeadersObject(AuthHeaders(st))
    ensures reply.Response? && reply.ok ==> r.result == ReadBody(reply)
  {
    HelperInit("GET", None, options, st);
    Request(url, VerbInit("GET", None, options), st, reply)
  }

  /** `post(url, data, options)`; `stringify` is `JSON.stringify`. */
  function Post(url: string, data: Value, options: Options, stringify: Value -> Value, st: Storage,
                reply: Reply): (r: Exchange<Value>)
    ensures r.sent.Some? && r.sent.value.url == url
    ensures r.sent.value.init.Keys == options.Keys + {"method", "headers"} + {"body"}
    ensures "method" !in options ==> r.sent.value.init["method"] == Str("POST")
    ensures "body" !in options ==> r.sent.value.init["body"] == stringify(data)
    ensures "headers" !in options ==> r.sent.value.init["headers"] == HeadersObject(AuthHeaders(st))
    ensures reply.Response? && reply.ok ==> r.result == ReadBody(reply)
  {
    HelperInit("POST", Some(stringify(data)), options, st);
    Request(url, VerbInit("POST", Some(stringify(data)), options), st, reply)
  }

  /** `put(url, data, options)`. */
  function Put(url: string, data: Value, options: Options, stringify: Value -> Value, st: Storage,
               reply: Reply): (r: Exchange<Value>)
    ensures r.sent.Some? && r.sent.value.url == url
    ensures r.sent.value.init.Keys == options.Keys + {"method", "headers"} + {"body"}
    ensures "method" !in options ==> r.sent.value.init["method"] == Str("PUT")
    ensures "body" !in options ==> r.sent.value.init["body"] == stringify(data)
    ensures "headers" !in options ==> r.sent.value.init["headers"] == HeadersObject(AuthHeaders(st))
    ensures reply.Response? && reply.ok ==> r.result == ReadBody(reply)
  {
    HelperInit("PUT", Some(stringify(data)), options, st);
    Request(url, VerbInit("PUT", Some(stringify(data)), options), st, reply)
  }

  /** `delete(url, options)`. */
  function Delete(url: string, options: Options, st: Storage, reply: Reply): (r: Exchange<Value>)
    ensures r.sent.Some? && r.sent.value.url == url
    ensures r.sent.value.init.Keys == options.Keys + {"method", "headers"}
    ensures "method" !in options ==> r.sent.value.init["method"] == Str("DELETE")
    ensures "body" !in options ==> "body" !in r.sent.value.init
    ensures "headers" !in options ==> r.sent.value.init["headers"] == HeadersObject(AuthHeaders(st))
    ensures reply.Response? && reply.ok ==> r.result == ReadBody(reply)
  {
    HelperInit("DELETE", None, options, st);
    Request(url, VerbInit("DELETE", None, options), st, reply)
  }

  /** `patch(url, data, options)`. */
  function Patch(url: string, data: Value, options: Options, stringify: Value -> Value, st: Storage,
                 reply: Reply): (r: Exchange<Value>)
    ensures r.sent.Some? && r.sent.value.url == url
    ensures r.sent.value.init.Keys == options.Keys + {"method", "headers"} + {"body"}
    ensures "method" !in options ==> r.sent.value.init["method"] == Str("PATCH")
    ensures "body" !in options ==> r.sent.value.init["body"] == stringify(data)
    ensures "headers" !in options ==> r.sent.value.init["headers"] == HeadersObject(AuthHeaders(st))
    ensures reply.Response? && reply.ok ==> r.result == ReadBody(reply)
  {
    HelperInit("PATCH", Some(stringify(data)), options, st);
    Request(url, VerbInit("PATCH", Some(stringify(data)), options), st, reply)
  }

  /** What a helper hands to `request`, for any options: the method, body
      and auth headers it sets survive exactly where the options do not
      name them. */
  lemma HelperInit(verb: string, body: Option<Value>, options: Options, st: Storage)
    ensures var init := RequestInit(VerbInit(verb, body, options), st);
      && (body.None? ==> init.Keys == options.Keys + {"method", "headers"})
      && (body.Some? ==> init.Keys == options.Keys + {"method", "headers"} + {"body"})
      && ("method" !in options ==> init["method"] == Str(verb))
      && (body.Some? && "body" !in options ==> init["body"] == body.value)
      && (body.None? && "body" !in options ==> "body" !in init)
      && ("headers" !in options ==> init["headers"] == HeadersObject(AuthHeaders(st)))
  {
  }

  /** With no options, a helper sends exactly its method, its body if it
      has one, and the auth headers. */
  lemma InitWithoutOptions(verb: string, body: Option<Value>, st: Storage)
    ensures var init := RequestInit(VerbInit(verb, body, map[]), st);
      && init.Keys == {"method", "headers"} + (if body.Some? then {"body"} else {})
      && init["method"] == Str(verb)
      && init["headers"] == HeadersObject(AuthHeaders(st))
      && (body.Some? ==> init["body"] == body.value)
  {
  }

  /** Each helper sends its own method; POST, PUT and PATCH send the
      serialised data as the body, GET and DELETE send none. */
  lemma HelpersSetMethodAndBody(url: string, data: Value, stringify: Value -> Value, st: Storage, reply: Reply)
    ensures Get(url, map[], st, reply).sent.value.init["method"] == Str("GET")
    ensures "body" !in Get(url, map[], st, reply).sent.value.init
    ensures Delete(url, map[], st, reply).sent.value.init["method"] == Str("DELETE")
    ensures "body" !in Delete(url, map[], st, reply).sent.value.init
    ensures Post(url, data, map[], stringify, st, reply).sent.value.init["method"] == Str("POST")
    ensures Post(url, data, map[], stringify, st, reply).sent.value.init["body"] == stringify(data)
    ensures Put(url, data, map[], stringify, st, reply).sent.value.init["method"] == Str("PUT")
    ensures Put(url, data, map[], stringify, st, reply).sent.value.init["body"] == stringify(data)
    ensures Patch(url, data, map[], stringify, st, reply).sent.value.init["method"] == Str("PATCH")
    ensures Patch(url, data, map[], stringify, st, reply).sent.value.init["body"] == stringify(data)
  {
    InitWithoutOptions("GET", None, st);
    InitWithoutOptions("DELETE", None, st);
    InitWithoutOptions("POST", Some(stringify(data)), st);
    InitWithoutOptions("PUT", Some(stringify(data)), st);
    InitWithoutOptions("PATCH", Some(stringify(data)), st);
  }

  /** Caller options override the helper: a `method`, `body` or `headers`
      option is sent as given, and a `headers` option drops the auth headers
      altogether. */
  lemma OptionsOverride(url: string, data: Value, options: Options, stringify: Value -> Value,
                        st: Storage, reply: Reply)
    ensures var init := Post(url, data, options, stringify, st, reply).sent.value.init;
      && ("method" in options ==> init["method"] == options["method"])
      && ("body" in options ==> init["body"] == options["body"])
      && ("headers" in options ==> init["headers"] == options["headers"])
  {
  }

  /** How the thrown message depends on the kind of body: the status line
      replaces a null, undefined or empty body; any other text body is the
      message as it is; an object without a truthy `message` prints as
      "[object Object]", and one with a message gives that message. */
  lemma ErrorMessageFallsBackToStatus(text: string, props: map<string, Value>, status: int, statusText: string)
    ensures ErrorMessage(Null, status, statusText) == "HTTP " + ToStr(Num(status)) + ": " + statusText
    ensures ErrorMessage(Undefined, status, statusText) == "HTTP " + ToStr(Num(status)) + ": " + statusText
    ensures ErrorMessage(Str(text), status, statusText)
         == if text == "" then "HTTP " + ToStr(Num(status)) + ": " + statusText else text
    ensures !Truthy(Field(props, "message")) ==> ErrorMessage(Obj(props), status, statusText) == "[object Object]"
    ensures Truthy(Field(props, "message")) ==> ErrorMessage(Obj(props), status, statusText) == ToStr(props["message"])
  {
  }
}
