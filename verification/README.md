# kinotes-frontend in Dafny

A model of the logic inside the kinotes React client. The rendering is not
part of it. The model covers:

- the three request models (`LoginModel`, `RegistrationModel`,
  `NoteRequestModel`), with their validators, JSON bodies and form-data
  constructors;
- the response models: `NoteModel` with its preview and date helpers, and
  `AuthResponseModel`, the session store over `localStorage`;
- the endpoint and header builders of `api.config`;
- the gateways `AuthService`, `NoteService` and `apiClient`;
- the state transitions of `HomePage` and `LoginForm`, and the guard in
  `ProtectedRoute`.

The model is written in terms of the JavaScript values the code handles.
`Js.Value` has cases for undefined, null, booleans, integers, strings,
arrays and objects. On top of it the model defines:

- truthiness, `||`, and default parameters (only `undefined` is replaced);
- property reads: on null or undefined they throw a `TypeError`;
- `String(v)`, which `localStorage.setItem` and template literals apply;
- `trim()` and `Array.prototype.join`.

`localStorage` is a map from strings to strings. Every gateway is a pure
function. It takes the storage and the server's reply as inputs. It
returns three things:

- the request it hands to `fetch`, or nothing when local validation stops
  it;
- what the caller receives, a value or a thrown error;
- for the auth calls, the storage afterwards.

`JSON.stringify`, `encodeURIComponent`, `toLocaleString` and the clock are
parameters.

The store and the guard disagree about who is logged in:

- `AuthResponseModel.isAuthenticated` looks only at `authToken`.
- `ProtectedRoute` looks only at the `isAuthenticated` flag.
- The home page's logout removes only the flag.

After that logout the route is closed. The store, however, still reports
the user as authenticated and still loads their session.
`ProtectedRoute.HomeLogoutLeavesSessionBehind` and
`ProtectedRoute.GuardAndStoreDisagree` state this.

## Model

| member | source | states |
|---|---|---|
| Js.Get | src/models/NoteModel.jsx:31-42 | Reading a property throws a TypeError exactly on null or undefined. Otherwise it gives the own property, or undefined when there is none. |
| Js.Trim | src/models/LoginModel.jsx:18 | `trim()` gives a contiguous piece of the string with only whitespace before and after it, and no whitespace at either end of the piece. It is empty exactly when every character is whitespace. |
| Js.TrimEmptyIffAllSpace | src/models/LoginModel.jsx:18 | After removing leading and then trailing whitespace, the result is empty iff the string was all whitespace. |
| Js.IsBlank | src/models/LoginModel.jsx:18 | `!v \|\| v.trim() === ''` throws exactly for truthy non-strings. Otherwise it is true exactly for falsy values and all-whitespace strings. |
| Validation.FromErrors | src/models/LoginModel.jsx:26-29 | `isValid` holds exactly when the error list is empty. |
| LoginModel.Validate | src/models/LoginModel.jsx:15-30 | Each blank field contributes its "required" message, username first, and `isValid` iff neither is blank. A truthy non-string field throws a TypeError. |
| LoginModel.ToJson | src/models/LoginModel.jsx:36-41 | The body has exactly the keys username and password, unchanged. |
| LoginModel.FromFormData | src/models/LoginModel.jsx:48-50 | It throws exactly for null or undefined form data. Missing fields become ''. Other fields are kept. |
| LoginModel.FormDataRoundTrip | src/models/LoginModel.jsx:36-50 | Defined form fields survive `fromFormData` followed by `toJSON`. |
| LoginModel.BlankCredentialsVerdict | src/models/LoginModel.jsx:15-30 | Two blank credentials fail with both "required" messages, username first. |
| LoginModel.FilledCredentialsVerdict | src/models/LoginModel.jsx:15-30 | Two credentials that each have a non-whitespace character pass with no errors. |
| RegistrationModel.UsernameErrors | src/models/RegistrationModel.jsx:20-26 | The username gets no error exactly when it is non-blank and 3 to 100 characters long. Otherwise it gets the required, too-short or too-long message. |
| RegistrationModel.EmailErrors | src/models/RegistrationModel.jsx:29-36 | The email gets no error exactly when it is non-blank and matches the pattern. Otherwise it gets the required or malformed message. |
| RegistrationModel.WellFormedEmailMatchesPattern | src/models/RegistrationModel.jsx:32-33 | The executable test is equivalent to the pattern's language, in both directions. The test is: no whitespace, exactly one '@' not at the start, and a '.' with characters on both sides after it. The language is run '@' run '.' run. |
| RegistrationModel.PasswordErrors | src/models/RegistrationModel.jsx:39-43 | The password gets no error exactly when it is non-blank and at least 8 characters long. Otherwise it gets the required or too-short message. |
| RegistrationModel.Validate | src/models/RegistrationModel.jsx:16-49 | `isValid` holds iff all three fields are good. There are at most three errors. It throws iff some field cannot be trimmed. |
| RegistrationModel.ValidateErrorsInFieldOrder | src/models/RegistrationModel.jsx:16-49 | The errors are the username, email and password errors, in that order. |
| RegistrationModel.ToJson | src/models/RegistrationModel.jsx:55-61 | The body has exactly the keys username, email and password, unchanged. |
| RegistrationModel.FromFormData | src/models/RegistrationModel.jsx:68-74 | It throws exactly for null or undefined form data. Missing fields become ''. |
| RegistrationModel.FormDataRoundTrip | src/models/RegistrationModel.jsx:55-74 | Defined fields survive `fromFormData` followed by `toJSON`. |
| NoteRequestModel.TitleErrors | src/models/NoteRequestModel.jsx:21-25 | A title gets no error exactly when it is non-blank and at most 255 characters long. |
| NoteRequestModel.Validate | src/models/NoteRequestModel.jsx:17-38 | `isValid` iff the title is good and imageUrls is falsy or an array. Content is never checked. |
| NoteRequestModel.ToJson | src/models/NoteRequestModel.jsx:44-57 | title and content are kept. A falsy imageUrls is sent as []. userId is present exactly when it is truthy. |
| NoteRequestModel.FromFormData | src/models/NoteRequestModel.jsx:64-71 | It throws exactly for null or undefined form data. A falsy imageUrls becomes []. |
| NoteRequestModel.Create | src/models/NoteRequestModel.jsx:81-83 | Arguments are given in the order title, content, userId, imageUrls but land in the right fields. Undefined arguments take the defaults. |
| NoteRequestModel.CreateSendsUserIdAndUrls | src/models/NoteRequestModel.jsx:44-57 | A note created with a user id and URLs sends both in its body. |
| NoteModel.FromJson | src/models/NoteModel.jsx:31-42 | Every field is copied from the record, or takes the constructor's default when undefined. A falsy imageUrls becomes []. Only null or undefined records throw. |
| NoteModel.FromJsonCopiesCompleteRecord | src/models/NoteModel.jsx:31-42 | A record with every field defined maps to a note holding exactly those values, except that a falsy imageUrls (null, '', 0, false) becomes []. |
| NoteModel.Formatted | src/models/NoteModel.jsx:48-60 | A missing or falsy timestamp formats as ''. |
| NoteModel.ContentPreview | src/models/NoteModel.jsx:67-71 | Falsy content gives ''. Content that fits is returned. Longer content gives its first maxLength characters plus "...". Non-string content throws when it must be cut. |
| NoteModel.HasImagesAfterFromJson | src/models/NoteModel.jsx:77-79 | A mapped note has images exactly when the record carried a non-empty array or string of URLs, or an object whose own `length` is a positive number or `true`. |
| LocalStorage.SetItem | src/models/AuthResponseModel.jsx:25-28 | It stores `String(v)` under the key and leaves every other key alone. |
| AuthResponseModel.FromJson | src/models/AuthResponseModel.jsx:17-19 | Exactly token, username and role are kept. No user id is stored. |
| AuthResponseModel.Save | src/models/AuthResponseModel.jsx:24-29 | The four session keys are set, with the flag "true". All other keys are unchanged. |
| AuthResponseModel.Load | src/models/AuthResponseModel.jsx:35-45 | A session is loaded iff token, username and role are all present and non-empty. |
| AuthResponseModel.Clear | src/models/AuthResponseModel.jsx:50-55 | Exactly the four session keys are removed. |
| AuthResponseModel.GetToken | src/models/AuthResponseModel.jsx:61-71 | The result is the stored token string exactly when the user counts as authenticated, and null otherwise. |
| AuthResponseModel.SaveThenLoadRoundTrip | src/models/AuthResponseModel.jsx:24-45 | Saving non-empty token, username and role and then loading gives them back. |
| AuthResponseModel.SaveWithoutTokenStillAuthenticates | src/models/AuthResponseModel.jsx:24-63 | A session saved without a token stores "undefined" and counts as authenticated. |
| AuthResponseModel.ClearEndsSession | src/models/AuthResponseModel.jsx:50-71 | After clearing, nobody is authenticated, the token is null and nothing loads. |
| AuthResponseModel.ClearIdempotent | src/models/AuthResponseModel.jsx:50-55 | Clearing twice is clearing once. |
| AuthResponseModel.EmptyTokenAuthenticatedButNotLoaded | src/models/AuthResponseModel.jsx:35-63 | An empty stored token counts as authenticated, but no session loads. |
| ApiConfig.BaseUrl | src/config/api.config.jsx:7 | The environment's URL is used when non-empty, otherwise http://localhost:6543. |
| ApiConfig.FixedEndpoints | src/config/api.config.jsx:12-19 | The login, register, create and all-notes endpoints are the base URL followed by their literal paths. |
| ApiConfig.ByIdShape | src/config/api.config.jsx:20 | `BY_ID` is the base URL, the notes path, then the printed id, unencoded. |
| ApiConfig.ByUserShape | src/config/api.config.jsx:21 | `BY_USER` is the base URL, the user path, then the printed user id, unencoded. |
| ApiConfig.SearchShape | src/config/api.config.jsx:22 | `SEARCH` carries the raw user id first and the encoded term last. |
| ApiConfig.ByIdUrlInjective | src/config/api.config.jsx:20 | Two note URLs are equal iff the printed ids are. |
| ApiConfig.AuthHeaders | src/config/api.config.jsx:29-43 | Content-Type is always application/json. Authorization is present iff the stored token is non-empty, and then it is "Bearer " plus the token. There are no other headers. |
| Http.FailureError | src/services/NoteService.jsx:32-34 | A failed reply throws its truthy message, otherwise the fallback. A null body throws a TypeError. |
| Http.Complete | src/services/NoteService.jsx:24-40 | A fetch rejection or a non-JSON body is rethrown. A non-ok reply throws `FailureError`, which is the fallback for an object body without a message. An ok reply is decoded. |
| ApiClient.RequestInit | src/utils/apiClient.jsx:88-91 | The auth headers are sent unless the options carry `headers`. Every option is sent as given. |
| ApiClient.ReadBody | src/utils/apiClient.jsx:95-100 | The body is read as JSON iff the content type contains application/json, otherwise as text. |
| ApiClient.ErrorMessage | src/utils/apiClient.jsx:104 | The error message is `data?.message`, else `data` when truthy, else "HTTP status: statusText". |
| ApiClient.Request | src/utils/apiClient.jsx:86-113 | It always sends. A non-ok reply throws `ErrorMessage`. An ok reply returns the body unchanged. |
| ApiClient.VerbInit | src/utils/apiClient.jsx:14-77 | The helper's method and body are set first, and every caller option overrides them. |
| ApiClient.HelpersSetMethodAndBody | src/utils/apiClient.jsx:14-77 | Each helper sends its own method. POST, PUT and PATCH send the serialised data. GET and DELETE send no body. |
| ApiClient.HelperInit | src/utils/apiClient.jsx:14-91 | For any options, the helper's method, body and the auth headers are sent exactly where the options do not name them. The keys sent are the options' keys plus method, headers and (for a body) body. |
| ApiClient.Get | src/utils/apiClient.jsx:14-19 | It sends to the URL with method GET and no body unless the options say otherwise, with the auth headers unless the options carry headers. An ok reply returns the body as read. |
| ApiClient.Post | src/utils/apiClient.jsx:28-34 | It sends method POST and the serialised data unless the options override them, with the auth headers unless the options carry headers. An ok reply returns the body as read. |
| ApiClient.Put | src/utils/apiClient.jsx:43-49 | It sends method PUT and the serialised data unless the options override them, with the auth headers unless the options carry headers. An ok reply returns the body as read. |
| ApiClient.Delete | src/utils/apiClient.jsx:57-62 | It sends method DELETE and no body unless the options say otherwise, with the auth headers unless the options carry headers. An ok reply returns the body as read. |
| ApiClient.Patch | src/utils/apiClient.jsx:71-77 | It sends method PATCH and the serialised data unless the options override them, with the auth headers unless the options carry headers. An ok reply returns the body as read. |
| ApiClient.OptionsOverride | src/utils/apiClient.jsx:14-91 | Caller options replace method, body and the whole headers object. |
| ApiClient.ErrorMessageFallsBackToStatus | src/utils/apiClient.jsx:104 | For every text body and every object body: the status line replaces a null, undefined or empty body. Any other text is the message as it is. An object prints its truthy `message`, or "[object Object]" without one. |
| AuthService.Authenticate | src/services/AuthService.jsx:16-46 | An invalid request throws the joined messages and sends nothing. A non-ok reply throws the message or the fallback. Storage changes only on success, and then it holds the saved session. |
| AuthService.Login | src/services/AuthService.jsx:16-46 | No request is sent iff validation fails. A throwing validation gives a TypeError and an invalid one the joined messages. A failed reply without a message throws "Invalid username or password". Storage is untouched on failure. On success the session is saved and the user is authenticated. |
| AuthService.Register | src/services/AuthService.jsx:48-78 | No request is sent iff validation fails. A throwing validation gives a TypeError and an invalid one the joined messages. A failed reply without a message throws "Registration failed". Storage is untouched on failure. On success the session is saved and the user is authenticated. |
| AuthService.Logout | src/services/AuthService.jsx:84-86 | Afterwards nobody is authenticated and no session loads. Keys outside the session are kept. |
| AuthService.Token | src/services/AuthService.jsx:92-110 | `getToken` is the stored token string, present exactly when `isAuthenticated` holds, and null otherwise. |
| AuthService.BothRequiredSummary | src/services/AuthService.jsx:21 | The two "required" messages join into "Username is required, Password is required". |
| AuthService.LoginRejectsBlankCredentials | src/services/AuthService.jsx:19-22 | Blank credentials throw both "required" messages joined by ", ". Nothing is sent and storage is unchanged. |
| AuthService.FailedReplyMessage | src/services/AuthService.jsx:30-35 | For a request that went out, a non-ok reply throws the backend's message, or the fallback when there is none. Storage is unchanged. |
| AuthService.LoginFailureMessage | src/services/AuthService.jsx:32-35 | A non-ok reply to valid credentials throws the backend's message, or "Invalid username or password" when there is none. Storage is unchanged. |
| AuthService.RegisterFailureMessage | src/services/AuthService.jsx:62-67 | A non-ok reply to a registration that went out throws the backend's message, or "Registration failed" when there is none. Storage is unchanged. |
| AuthService.LoginSuccessAuthenticates | src/services/AuthService.jsx:38-41 | An ok login stores the reply's fields before returning them. Afterwards the user is authenticated and the token is the reply's. |
| AuthService.SentAndOkSavesSession | src/services/AuthService.jsx:36-41 | For a request that went out, an ok reply naming the user is returned and saved to storage. |
| AuthService.RegisterSuccessLogsIn | src/services/AuthService.jsx:69-73 | A registration that went out and got an ok reply leaves the user authenticated and loadable, with no login step. |
| AuthService.LogoutEndsSession | src/services/AuthService.jsx:84-110 | After logout, `isAuthenticated`, `getToken` and `getCurrentUser` all report no user. |
| NoteService.MapFromJson | src/services/NoteService.jsx:56 | Mapping records through `fromJSON` succeeds iff no record is null or undefined. The length is kept, and note i is `fromJSON` of record i. |
| NoteService.NoteInit | src/services/NoteService.jsx:24-28 | The init carries the method, the body when there is one, and the headers. The headers hold the stored token as "Bearer " plus the token exactly when one is stored, and only Content-Type otherwise. |
| NoteService.FromJsonList | src/services/NoteService.jsx:43-61 | Only arrays can be mapped. Otherwise the same as `MapFromJson`. |
| NoteService.Submit | src/services/NoteService.jsx:16-147 | An invalid request throws the joined messages and sends nothing. Otherwise it sends the method, auth headers and serialised body, and returns `fromJSON` of an ok reply. |
| NoteService.CreateNote | src/services/NoteService.jsx:16-41 | A request that goes out is a POST to the create endpoint. A failed reply without a message throws "Failed to create note". An ok reply gives `fromJSON` of the body. |
| NoteService.UpdateNote | src/services/NoteService.jsx:122-147 | A request that goes out is a PUT to the note's URL. A failed reply without a message throws "Failed to update note". An ok reply gives `fromJSON` of the body. |
| NoteService.Fetch | src/services/NoteService.jsx:43-197 | A GET always goes out, with no body and with the stored token as a bearer header. A rejected fetch or a non-JSON body is rethrown. A failed reply throws the backend's message or the fallback. An ok reply is decoded. |
| NoteService.GetAllNotes | src/services/NoteService.jsx:43-61 | A GET to the all-notes endpoint. A failed reply without a message throws "Failed to fetch notes". An ok reply is mapped as a list. |
| NoteService.GetNoteById | src/services/NoteService.jsx:69-87 | A GET to the note's URL. A failed reply without a message throws "Failed to fetch note". An ok reply gives `fromJSON` of the body. |
| NoteService.GetNotesByUserId | src/services/NoteService.jsx:95-113 | A GET to the user's notes URL. A failed reply without a message throws "Failed to fetch user notes". An ok reply is mapped as a list. |
| NoteService.SearchNotes | src/services/NoteService.jsx:179-197 | A GET to the search URL. A failed reply without a message throws "Failed to search notes". An ok reply is mapped as a list. |
| NoteService.DeleteNote | src/services/NoteService.jsx:155-170 | An ok reply resolves with nothing and its body is not read. A failed reply throws its message, or "Failed to delete note" when there is none. |
| NoteService.ListsPreserveLengthAndOrder | src/services/NoteService.jsx:43-61 | Any list of object records maps to as many notes, in order: note i is `fromJSON` of record i. |
| NoteService.InvalidRequestIsNeverSent | src/services/NoteService.jsx:16-128 | Create and update are refused before sending for exactly the same requests, with the same error. These are the requests whose `validate()` throws or is not valid. |
| NoteService.BlankTitleMessage | src/services/NoteService.jsx:19-22 | A blank title is refused with exactly "Title is required". |
| NoteService.CreateSendsBearerToken | src/services/NoteService.jsx:24-28 | A valid create carries the stored token as a bearer header. |
| NoteService.SingleNoteIsFromJson | src/services/NoteService.jsx:36-142 | A successful create, get-by-id or update returns `fromJSON` of the reply. |
| HomePage.SaveNote | src/components/Home/HomePage.jsx:11-22 | A whitespace-only draft changes nothing. Any other draft is put in front, untrimmed; the other notes are kept in order and the draft is cleared. |
| HomePage.Without | src/components/Home/HomePage.jsx:25 | Exactly the notes with other ids remain. |
| HomePage.DeleteNote | src/components/Home/HomePage.jsx:24-26 | Exactly the notes with other ids remain. The draft is untouched. |
| HomePage.WithoutAppend | src/components/Home/HomePage.jsx:25 | Deleting distributes over concatenation, so the notes kept stay in order. |
| HomePage.WithoutAbsentId | src/components/Home/HomePage.jsx:25 | Deleting an id no note carries changes nothing. |
| HomePage.WithoutIdempotent | src/components/Home/HomePage.jsx:25 | Deleting twice is deleting once. |
| HomePage.SaveThenDelete | src/components/Home/HomePage.jsx:11-26 | A freshly saved note is removed again by its id, leaving the earlier notes. |
| HomePage.KeyPress | src/components/Home/HomePage.jsx:28-32 | Only Enter with Ctrl saves. Every other key changes nothing. |
| HomePage.Logout | src/components/Home/HomePage.jsx:34-37 | Only the isAuthenticated key is removed, and the page goes to /login. |
| LoginForm.HandleChange | src/components/Login/LoginForm.jsx:13-19 | Only the named field changes. |
| LoginForm.HandleSubmit | src/components/Login/LoginForm.jsx:21-40 | An empty field shows "Please fill in all fields" and submits nothing. Otherwise the error is cleared and `onSubmit`, if given, is called once with the data. |
| LoginForm.InitialFormIsRefused | src/components/Login/LoginForm.jsx:7-28 | The untouched form is refused. |
| LoginForm.SpacesPassGateButNotModel | src/components/Login/LoginForm.jsx:25 | Whitespace-only fields pass the form's gate, yet `LoginModel.validate` rejects the same data. |
| ProtectedRoute.Guard | src/components/Shared/ProtectedRoute.jsx:3-13 | Children are rendered iff the flag is exactly "true". Otherwise it redirects to /login. |
| ProtectedRoute.OnlyTheFlagMatters | src/components/Shared/ProtectedRoute.jsx:5 | The decision depends only on the flag, read afresh from storage. |
| ProtectedRoute.AllowsAfterSave | src/components/Shared/ProtectedRoute.jsx:5 | After a session is saved the route is open. |
| ProtectedRoute.DeniesAfterClear | src/components/Shared/ProtectedRoute.jsx:5-10 | After the session is cleared the route is closed. |
| ProtectedRoute.HomeLogoutLeavesSessionBehind | src/components/Home/HomePage.jsx:35 | After the home page's logout the route is closed. The store still reports the user as authenticated, with the same token and loaded session. |
| ProtectedRoute.GuardAndStoreDisagree | src/components/Shared/ProtectedRoute.jsx:5 | For every store: a flag "true" without a token opens the route while the store says nobody is logged in, and a token without the flag closes it while the store says the user is logged in. |
| ProtectedRoute.DisagreementsOccur | src/components/Shared/ProtectedRoute.jsx:5 | Both disagreements occur: a store holding only the flag, and one holding only a token. |

## Left out

- Rendering, animation, routing and the login and register pages are not modelled. Only the logic their handlers run is.
- `JSON.stringify`, `encodeURIComponent`, `Date.now()` and `toLocaleString()` are parameters. Their results are not specified.
- Asynchrony is not modelled. Each `await` is taken in order, and the reply is a single input value.
- `fetch` is not modelled. A rejected fetch is the single error `FetchFailed`, whatever the cause.
- `response.json()` is an input. A body that is not JSON makes it throw `SyntaxError`.
- `console.log` and `console.error` calls are left out; they do not change any result.
- Numbers are integers. Floating point, NaN and the number formatting of `String(n)` beyond integers are left out.
- Strings are sequences of characters. The difference between UTF-16 code units and code points is not modelled.
- Properties come only from an object's own map. Prototype properties and getters are not modelled.
- `Js.IsSpace` lists the ECMAScript whitespace and line-terminator characters explicitly, from section 12.2 and 12.3 of ECMA-262.
- NoteModel.ContentPreview: `maxLength` is an integer. Non-number and default-argument cases are not modelled, and an object with its own `length` property is treated as having none.
- NoteModel.HasImages: modelled as a condition. The source returns the falsy value itself when there are no images. An own `length` compares as a number only when it is a number or a boolean; a `length` that is a string, array or object is treated as not positive, since string-to-number conversion is not modelled.
- AuthService.GetCurrentUser and AuthService.IsLoggedIn delegate to the store unchanged. Their properties are stated on `AuthResponseModel.Load`, `AuthResponseModel.GetToken`, `AuthResponseModel.ClearEndsSession` and `AuthResponseModel.SaveWithoutTokenStillAuthenticates`.
- The session stores no user id. `fromJSON` keeps only token, username and role, and the model follows the code.
- `NoteModel.fromJSON` passes each field through the constructor. An undefined field therefore takes the constructor's default instead of staying undefined. The model follows the code.
