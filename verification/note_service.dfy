/** `NoteService`: create, read, list, update, delete and search notes. Each
    call sends one request with the auth headers (create and update only
    after local validation) and maps the reply into `NoteModel` values. */
module NoteService {
  import opened Js
  import opened LocalStorage
  import opened Validation
  import opened ApiConfig
  import opened Http
  import opened NoteModel
  import NoteRequestModel
  import AuthResponseModel

  const CreateFallback := "Failed to create note"
  const ListFallback := "Failed to fetch notes"
  const GetFallback := "Failed to fetch note"
  const UserFallback := "Failed to fetch user notes"
  const UpdateFallback := "Failed to update note"
  const DeleteFallback := "Failed to delete note"
  const SearchFallback := "Failed to search notes"

  /** The init every call hands to `fetch`: its method, the auth headers,
      and a serialised body for create and update. */
  function NoteInit(verb: string, st: Storage, body: Option<Value>): (r: map<string, Value>)
    ensures body.None? ==> r.Keys == {"method", "headers"}
    ensures body.Some? ==> r.Keys == {"method", "headers", "body"} && r["body"] == body.value
    ensures r["method"] == Str(verb)
    ensures r["headers"].Obj? && ContentType in r["headers"].props
    ensures HasToken(st) ==> CarriesBearer(r, st)
    ensures !HasToken(st) ==> r["headers"].props.Keys == {ContentType}
  {
    var init := map["method" := Str(verb), "headers" := HeadersObject(AuthHeaders(st))];
    if body.Some? then init["body" := body.value] else init
  }

  /** `data.map(note => NoteModel.fromJSON(note))`: an array maps element by
      element, in order, and throws at a null or undefined element; anything
      else has no `map` to call. */
  function FromJsonList(data: Value): (r: Result<seq<Note>>)
    ensures r.Ok? <==> data.Arr? && forall i :: 0 <= i < |data.elems| ==> !Nullish(data.elems[i])
    ensures r.Throw? ==> r.error == TypeError
    ensures r.Ok? ==> |r.value| == |data.elems|
    ensures r.Ok? ==> forall i :: 0 <= i < |r.value| ==> FromJson(data.elems[i]) == Ok(r.value[i])
  {
    if !data.Arr? then Throw(TypeError) else MapFromJson(data.elems)
  }

  /** The element-wise mapping behind `FromJsonList`. */
  function MapFromJson(records: seq<Value>): (r: Result<seq<Note>>)
    ensures r.Ok? <==> forall i :: 0 <= i < |records| ==> !Nullish(records[i])
    ensures r.Throw? ==> r.error == TypeError
    ensures r.Ok? ==> |r.value| == |records|
    ensures r.Ok? ==> forall i :: 0 <= i < |r.value| ==> FromJson(records[i]) == Ok(r.value[i])
  {
    if |records| == 0 then Ok([])
    else
      var head :- FromJson(records[0]);
      var tail :- MapFromJson(records[1..]);
      assert forall i :: 1 <= i < |records| ==> records[i] == records[1..][i - 1];
      Ok([head] + tail)
  }

  /** The steps create and update share: a request that fails validation
      throws its joined messages and is never sent; otherwise it is sent
      with `verb` to `url` and the reply is mapped by `fromJSON`. */
  function Submit(request: NoteRequestModel.NoteRequest, verb: string, url: string, fallback: string,
                  st: Storage, reply: Reply, stringify: Value -> Value): (r: Exchange<Note>)
    ensures r.sent.None? <==>
              NoteRequestModel.Validate(request).Throw? || !NoteRequestModel.Validate(request).value.isValid
    ensures NoteRequestModel.Validate(request).Throw? ==> r.result == Throw(TypeError)
    ensures NoteRequestModel.Validate(request).Ok? && !NoteRequestModel.Validate(request).value.isValid ==>
              r.result == Throw(Error(Summary(NoteRequestModel.Validate(request).value)))
    ensures r.sent.Some? ==>
              r.sent.value == Sent(url, NoteInit(verb, st, Some(stringify(NoteRequestModel.ToJson(request)))))
    ensures r.sent.Some? ==> r.result == Complete(reply, fallback, FromJson)
  {
    match NoteRequestModel.Validate(request)
    case Throw(e) => Exchange(None, Throw(e))
    case Ok(verdict) =>
      if !verdict.isValid then Exchange(None, Throw(Error(Summary(verdict))))
      else
        var body := stringify(NoteRequestModel.ToJson(request));
        Exchange(Some(Sent(url, NoteInit(verb, st, Some(body)))), Complete(reply, fallback, FromJson))
  }

  /** `createNote(noteRequest)`. */
  function CreateNote(request: NoteRequestModel.NoteRequest, base: string, st: Storage, reply: Reply,
                      stringify: Value -> Value): (r: Exchange<Note>)
    ensures r.sent.Some? ==> Issued(r.sent, "POST", CreateUrl(base))
    ensures r.sent.Some? && SilentFailure(reply) ==> r.result == Throw(Error("Failed to create note"))
    ensures r.sent.Some? && reply.Response? && reply.ok && reply.json.Some? ==> r.result == FromJson(reply.json.value)
  {
    Submit(request, "POST", CreateUrl(base), CreateFallback, st, reply, stringify)
  }

  /** `updateNote(noteId, noteRequest)`. */
  function UpdateNote(noteId: Value, request: NoteRequestModel.NoteRequest, base: string, st: Storage,
                      reply: Reply, stringify: Value -> Value): (r: Exchange<Note>)
    ensures r.sent.Some? ==> Issued(r.sent, "PUT", ByIdUrl(base, noteId))
    ensures r.sent.Some? && SilentFailure(reply) ==> r.result == Throw(Error("Failed to update note"))
    ensures r.sent.Some? && reply.Response? && reply.ok && reply.json.Some? ==> r.result == FromJson(reply.json.value)
  {
    Submit(request, "PUT", ByIdUrl(base, noteId), UpdateFallback, st, reply, stringify)
  }

  /** A GET of one note or of a list, mapped by `decode`: it always goes
      out, with the bearer token when one is stored and no body; a rejected
      fetch or a non-JSON body is rethrown, a failed reply throws the
      backend's message or `fallback`, and an ok reply is decoded. */
  function Fetch<T>(url: string, fallback: string, decode: Value -> Result<T>, st: Storage, reply: Reply)
    : (r: Exchange<T>)
    ensures Issued(r.sent, "GET", url) && r.sent.value.init.Keys == {"method", "headers"}
    ensures HasToken(st) ==> CarriesBearer(r.sent.value.init, st)
    ensures reply.Unreachable? ==> r.result == Throw(FetchFailed)
    ensures reply.Response? && reply.json.None? ==> r.result == Throw(SyntaxError)
    ensures reply.Response? && !reply.ok && reply.json.Some? ==>
              r.result == Throw(FailureError(reply.json.value, fallback))
    ensures SilentFailure(reply) ==> r.result == Throw(Error(fallback))
    ensures reply.Response? && reply.ok && reply.json.Some? ==> r.result == decode(reply.json.value)
  {
    Exchange(Some(Sent(url, NoteInit("GET", st, None))), Complete(reply, fallback, decode))
  }

  /** `getAllNotes()`. */
  function GetAllNotes(base: string, st: Storage, reply: Reply): (r: Exchange<seq<Note>>)
    ensures Issued(r.sent, "GET", AllNotesUrl(base))
    ensures SilentFailure(reply) ==> r.result == Throw(Error("Failed to fetch notes"))
    ensures reply.Response? && reply.ok && reply.json.Some? ==> r.result == FromJsonList(reply.json.value)
  {
    Fetch(AllNotesUrl(base), ListFallback, FromJsonList, st, reply)
  }

  /** `getNoteById(noteId)`. */
  function GetNoteById(noteId: Value, base: string, st: Storage, reply: Reply): (r: Exchange<Note>)
    ensures Issued(r.sent, "GET", ByIdUrl(base, noteId))
    ensures SilentFailure(reply) ==> r.result == Throw(Error("Failed to fetch note"))
    ensures reply.Response? && reply.ok && reply.json.Some? ==> r.result == FromJson(reply.json.value)
  {
    Fetch(ByIdUrl(base, noteId), GetFallback, FromJson, st, reply)
  }

  /** `getNotesByUserId(userId)`. */
  function GetNotesByUserId(userId: Value, base: string, st: Storage, reply: Reply): (r: Exchange<seq<Note>>)
    ensures Issued(r.sent, "GET", ByUserUrl(base, userId))
    ensures SilentFailure(reply) ==> r.result == Throw(Error("Failed to fetch user notes"))
    ensures reply.Response? && reply.ok && reply.json.Some? ==> r.result == FromJsonList(reply.json.value)
  {
    Fetch(ByUserUrl(base, userId), UserFallback, FromJsonList, st, reply)
  }

  /** `searchNotes(userId, searchTerm)`; `encode` is `encodeURIComponent`. */
  function SearchNotes(userId: Value, term: Value, encode: string -> string, base: string, st: Storage,
                       reply: Reply): (r: Exchange<seq<Note>>)
    ensures Issued(r.sent, "GET", SearchUrl(base, userId, term, encode))
    ensures SilentFailure(reply) ==> r.result == Throw(Error("Failed to search notes"))
    ensures reply.Response? && reply.ok && reply.json.Some? ==> r.result == FromJsonList(reply.json.value)
  {
    Fetch(SearchUrl(base, userId, term, encode), SearchFallback, FromJsonList, st, reply)
  }

  /** `deleteNote(noteId)`: an ok reply resolves with nothing and its body is
      never read; only a failed one is parsed for its message. */
  function DeleteNote(noteId: Value, base: string, st: Storage, reply: Reply): (r: Exchange<()>)
    ensures r.sent == Some(Sent(ByIdUrl(base, noteId), NoteInit("DELETE", st, None)))
    ensures reply.Unreachable? ==> r.result == Throw(FetchFailed)
    ensures reply.Response? && reply.ok ==> r.result == Ok(())
    ensures reply.Response? && !reply.ok && reply.json.None? ==> r.result == Throw(SyntaxError)
    ensures reply.Response? && !reply.ok && reply.json.Some? ==>
              r.result == Throw(FailureError(reply.json.value, DeleteFallback))
    ensures SilentFailure(reply) ==> r.result == Throw(Error("Failed to delete note"))
  {
    var sent := Some(Sent(ByIdUrl(base, noteId), NoteInit("DELETE", st, None)));
    match reply
    case Unreachable => Exchange(sent, Throw(FetchFailed))
    case Response(ok, _, _, _, _, _) =>
      if ok then Exchange(sent, Ok(()))
      else
        match ReadJson(reply)
        case Throw(e) => Exchange(sent, Throw(e))
        case Ok(data) => Exchange(sent, Throw(FailureError(data, DeleteFallback)))
  }

  // ---------------------------------------------------------------------------
  // Properties of the gateway

  /** A list reply of records maps to notes one for one and in order:
      the i-th note is `fromJSON` of the i-th record. */
  lemma ListsPreserveLengthAndOrder(base: string, st: Storage, status: int, statusText: string,
                                    contentType: Option<string>, records: seq<Value>, text: string)
    requires forall i :: 0 <= i < |records| ==> records[i].Obj?
    ensures var r := GetAllNotes(base, st, Response(true, status, statusText, contentType, Some(Arr(records)), text)).result;
      && r.Ok?
      && |r.value| == |records|
      && forall i :: 0 <= i < |records| ==> FromJson(records[i]) == Ok(r.value[i])
  {
  }

  /** Create and update validate alike: one is refused before sending
      exactly when the other is, with the same error, and what stops them is
      a throwing or failing `validate()`. */
  lemma InvalidRequestIsNeverSent(request: NoteRequestModel.NoteRequest, noteId: Value, base: string,
                                  st: Storage, reply: Reply, stringify: Value -> Value)
    ensures CreateNote(request, base, st, reply, stringify).sent.None?
        <==> UpdateNote(noteId, request, base, st, reply, stringify).sent.None?
    ensures CreateNote(request, base, st, reply, stringify).sent.None? ==>
              CreateNote(request, base, st, reply, stringify).result
              == UpdateNote(noteId, request, base, st, reply, stringify).result
    ensures CreateNote(request, base, st, reply, stringify).sent.None? <==>
              !(NoteRequestModel.Validate(request).Ok? && NoteRequestModel.Validate(request).value.isValid)
  {
  }

  /** A blank title is refused with exactly "Title is required". */
  lemma BlankTitleMessage(title: string, content: Value, base: string, st: Storage, reply: Reply,
                          stringify: Value -> Value)
    requires AllSpace(title)
    ensures CreateNote(NoteRequestModel.NoteRequest(Str(title), content, Arr([]), Null), base, st, reply, stringify)
         == Exchange(None, Throw(Error("Title is required")))
  {
  }

  /** The request a valid create sends carries the bearer token of the
      stored session. */
  lemma CreateSendsBearerToken(request: NoteRequestModel.NoteRequest, base: string, st: Storage, reply: Reply,
                               stringify: Value -> Value)
    requires NoteRequestModel.Validate(request).Ok? && NoteRequestModel.Validate(request).value.isValid
    requires HasToken(st)
    ensures var r := CreateNote(request, base, st, reply, stringify);
      && r.sent.Some?
      && CarriesBearer(r.sent.value.init, st)
  {
  }

  /** A successful create, fetch or update returns `fromJSON` of the reply. */
  lemma SingleNoteIsFromJson(noteId: Value, request: NoteRequestModel.NoteRequest, base: string, st: Storage,
                             status: int, statusText: string, contentType: Option<string>, data: Value,
                             text: string, stringify: Value -> Value)
    requires !Nullish(data)
    requires NoteRequestModel.GoodTitle(request.title) && NoteRequestModel.GoodImageUrls(request.imageUrls)
    ensures var reply := Response(true, status, statusText, contentType, Some(data), text);
      && CreateNote(request, base, st, reply, stringify).result == FromJson(data)
      && GetNoteById(noteId, base, st, reply).result == FromJson(data)
      && UpdateNote(noteId, request, base, st, reply, stringify).result == FromJson(data)
      && FromJson(data).Ok?
  {
  }
}
