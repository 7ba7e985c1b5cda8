/** `fetch` seen from the client: the request it is handed, the reply that
    comes back (an input to every gateway), and the decision sequence the
    gateways share once the reply is in. */
module Http {
  import opened Js

  /** What `fetch` resolves to, or `Unreachable` when it rejects. `json` is
      what `response.json()` yields, `None` when the body is not JSON;
      `text` is what `response.text()` yields. */
  datatype Reply =
    | Unreachable
    | Response(ok: bool, status: int, statusText: string, contentType: Option<string>,
               json: Option<Value>, text: string)

  /** A request handed to `fetch`: the URL and the init object (method,
      headers, body and whatever else the caller put in). */
  datatype Sent = Sent(url: string, init: map<string, Value>)

  /** One gateway call: the request it issued, if any, and what the caller
      receives. */
  datatype Exchange<T> = Exchange(sent: Option<Sent>, result: Result<T>)

  /** `sent` is a request with method `verb` to `url`. */
  predicate Issued(sent: Option<Sent>, verb: string, url: string) {
    sent.Some? && sent.value.url == url && "method" in sent.value.init && sent.value.init["method"] == Str(verb)
  }

  /** `await response.json()`. */
  function ReadJson(reply: Reply): (r: Result<Value>)
    requires reply.Response?
    ensures reply.json.Some? ==> r == Ok(reply.json.value)
    ensures reply.json.None? ==> r == Throw(SyntaxError)
  {
    if reply.json.Some? then Ok(reply.json.value) else Throw(SyntaxError)
  }

  /** `new Error(data.message || fallback)`: the backend's message when it is
      truthy, the fallback otherwise. Reading `message` of a null body
      throws a TypeError instead. */
  function FailureError(data: Value, fallback: string): (r: Thrown)
    ensures Nullish(data) ==> r == TypeError
    ensures data.Obj? && Truthy(Field(data.props, "message")) ==> r == Error(ToStr(data.props["message"]))
    ensures data.Obj? && !Truthy(Field(data.props, "message")) ==> r == Error(fallback)
    ensures !data.Obj? && !Nullish(data) ==> r == Error(fallback)
  {
    if Nullish(data) then TypeError
    else Error(ToStr(Or(Get(data, "message").value, Str(fallback))))
  }

  /** A failed reply whose JSON body is an object without a truthy
      `message`: the gateways throw their own fallback message for it. */
  predicate SilentFailure(reply: Reply) {
    && reply.Response? && !reply.ok && reply.json.Some? && reply.json.value.Obj?
    && !Truthy(Field(reply.json.value.props, "message"))
  }

  /** The tail every note and auth gateway shares: a rejected `fetch`
      rethrows, the body is parsed as JSON, a non-ok status throws
      `FailureError`, and an ok status hands the body to `decode`. */
  function Complete<T>(reply: Reply, fallback: string, decode: Value -> Result<T>): (r: Result<T>)
    ensures reply.Unreachable? ==> r == Throw(FetchFailed)
    ensures reply.Response? && reply.json.None? ==> r == Throw(SyntaxError)
    ensures reply.Response? && reply.json.Some? && !reply.ok ==>
              r == Throw(FailureError(reply.json.value, fallback))
    ensures SilentFailure(reply) ==> r == Throw(Error(fallback))
    ensures reply.Response? && reply.json.Some? && reply.ok ==> r == decode(reply.json.value)
  {
    match reply
    case Unreachable => Throw(FetchFailed)
    case Response(ok, _, _, _, _, _) =>
      var data :- ReadJson(reply);
      if !ok then Throw(FailureError(data, fallback)) else decode(data)
  }
}
