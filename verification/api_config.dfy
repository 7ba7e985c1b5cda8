/** Endpoint URLs and request headers (`api.config`). */
module ApiConfig {
  import opened Js
  import opened LocalStorage
  import AuthResponseModel

  const FallbackBaseUrl := "http://localhost:6543"

  /** `import.meta.env.VITE_API_BASE_URL || 'http://localhost:6543'`; the
      environment variable is an input. */
  function BaseUrl(env: Option<string>): (r: string)
    ensures env.Some? && env.value != "" ==> r == env.value
    ensures env.None? || env.value == "" ==> r == FallbackBaseUrl
  {
    if env.Some? && env.value != "" then env.value else FallbackBaseUrl
  }

  function LoginUrl(base: string): string { base + "/api/auth/login" }
  function RegisterUrl(base: string): string { base + "/api/auth/register" }
  function CreateUrl(base: string): string { base + "/api/notes/create-note" }
  function AllNotesUrl(base: string): string { base + "/api/notes/all-notes" }

  /** `BY_ID(id)`: the identifier as `String(id)`, not encoded. */
  function ByIdUrl(base: string, id: Value): string {
    base + "/api/notes/" + ToStr(id)
  }

  /** `BY_USER(userId)`: the identifier as `String(userId)`, not encoded. */
  function ByUserUrl(base: string, userId: Value): string {
    base + "/api/notes/user/" + ToStr(userId)
  }

  /** `SEARCH(userId, term)`: the user id raw, then the term passed through
      `encode` (`encodeURIComponent`, which first turns its argument into a
      string). */
  function SearchUrl(base: string, userId: Value, term: Value, encode: string -> string): string {
    base + "/api/notes/search?userId=" + ToStr(userId) + "&term=" + encode(ToStr(term))
  }

  /** The four fixed endpoints are the base URL followed by their literal
      paths. */
  lemma FixedEndpoints(base: string)
    ensures LoginUrl(base)[..|base|] == base && LoginUrl(base)[|base|..] == "/api/auth/login"
    ensures RegisterUrl(base)[..|base|] == base && RegisterUrl(base)[|base|..] == "/api/auth/register"
    ensures CreateUrl(base)[..|base|] == base && CreateUrl(base)[|base|..] == "/api/notes/create-note"
    ensures AllNotesUrl(base)[..|base|] == base && AllNotesUrl(base)[|base|..] == "/api/notes/all-notes"
  {
    Split(base, "/api/auth/login");
    Split(base, "/api/auth/register");
    Split(base, "/api/notes/create-note");
    Split(base, "/api/notes/all-notes");
  }

  /** `BY_ID` puts the printed id, unencoded, after the notes path. */
  lemma ByIdShape(base: string, id: Value)
    ensures ByIdUrl(base, id)[..|base|] == base
    ensures ByIdUrl(base, id)[|base|..] == "/api/notes/" + ToStr(id)
  {
    Append3(base, "/api/notes/", ToStr(id));
  }

  /** `BY_USER` puts the printed user id, unencoded, after the user path. */
  lemma ByUserShape(base: string, userId: Value)
    ensures ByUserUrl(base, userId)[..|base|] == base
    ensures ByUserUrl(base, userId)[|base|..] == "/api/notes/user/" + ToStr(userId)
  {
    Append3(base, "/api/notes/user/", ToStr(userId));
  }

  /** `SEARCH` has the raw user id first and the encoded term last. */
  lemma SearchShape(base: string, userId: Value, term: Value, encode: string -> string)
    ensures SearchUrl(base, userId, term, encode)[..|base|] == base
    ensures SearchUrl(base, userId, term, encode)[|base|..]
         == "/api/notes/search?userId=" + ToStr(userId) + "&term=" + encode(ToStr(term))
  {
    var query := "/api/notes/search?userId=" + ToStr(userId) + "&term=" + encode(ToStr(term));
    assert SearchUrl(base, userId, term, encode) == base + query by {
      var a, b, c, d := "/api/notes/search?userId=", ToStr(userId), "&term=", encode(ToStr(term));
      assert base + a + b + c + d == base + (a + b + c + d);
    }
    Split(base, query);
  }

  /** `a + b + c` splits after `a` into `a` and `b + c`. */
  lemma Append3(a: string, b: string, c: string)
    ensures (a + b + c)[..|a|] == a && (a + b + c)[|a|..] == b + c
  {
    assert a + b + c == a + (b + c);
    Split(a, b + c);
  }

  /** A concatenation splits back into its two parts. */
  lemma Split(a: string, b: string)
    ensures (a + b)[..|a|] == a && (a + b)[|a|..] == b
  {
  }

  /** Two ids that print the same name the same note URL, and the URL
      determines the printed id. */
  lemma ByIdUrlInjective(base: string, a: Value, b: Value)
    ensures ByIdUrl(base, a) == ByIdUrl(base, b) <==> ToStr(a) == ToStr(b)
  {
    var prefix := base + "/api/notes/";
    assert ByIdUrl(base, a) == prefix + ToStr(a);
    assert ByIdUrl(base, b) == prefix + ToStr(b);
    if ByIdUrl(base, a) == ByIdUrl(base, b) {
      assert ToStr(a) == ByIdUrl(base, a)[|prefix|..];
      assert ToStr(b) == ByIdUrl(base, b)[|prefix|..];
    }
  }

  /** Headers as the object literal the code builds. */
  type Headers = map<string, string>

  const ContentType := "Content-Type"
  const Authorization := "Authorization"

  /** `DEFAULT_HEADERS`. */
  const DefaultHeaders: Headers := map[ContentType := "application/json"]

  /** A token `getAuthHeaders` will send: stored and non-empty. */
  predicate HasToken(st: Storage) {
    AuthResponseModel.TokenKey in st && st[AuthResponseModel.TokenKey] != ""
  }

  /** `getAuthHeaders()`: the default headers, plus `Authorization: Bearer
      <token>` when the stored token is truthy (present and non-empty). */
  function AuthHeaders(st: Storage): (r: Headers)
    ensures ContentType in r && r[ContentType] == "application/json"
    ensures Authorization in r <==> HasToken(st)
    ensures Authorization in r ==> r[Authorization] == "Bearer " + st[AuthResponseModel.TokenKey]
    ensures r.Keys <= {ContentType, Authorization}
  {
    var token := GetItem(st, AuthResponseModel.TokenKey);
    if Truthy(token) then DefaultHeaders[Authorization := "Bearer " + ToStr(token)] else DefaultHeaders
  }

  /** An init whose headers carry the stored token as a bearer credential. */
  predicate CarriesBearer(init: map<string, Value>, st: Storage) {
    && HasToken(st) && "headers" in init && init["headers"].Obj?
    && Authorization in init["headers"].props
    && init["headers"].props[Authorization] == Str("Bearer " + st[AuthResponseModel.TokenKey])
  }

  /** The headers as the JS object handed to `fetch`: one string property
      per header. */
  function HeadersObject(h: Headers): (r: Value)
    ensures r.Obj? && r.props.Keys == h.Keys
    ensures forall k :: k in h ==> r.props[k] == Str(h[k])
  {
    Obj(map k | k in h :: Str(h[k]))
  }
}
