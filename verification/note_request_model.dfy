/** The note create/update request: `NoteRequestModel` with its validator,
    its JSON body and its two factories. */
module NoteRequestModel {
  import opened Js
  import opened Validation

  datatype NoteRequest = NoteRequest(title: Value, content: Value, imageUrls: Value, userId: Value)

  const TitleRequired := "Title is required"
  const TitleTooLong := "Title must not exceed 255 characters"
  const ImageUrlsNotArray := "Image URLs must be an array"
  const MaxTitleLength := 255

  /** `new NoteRequestModel(title, content, imageUrls, userId)` with the
      defaults '', '', [] and null for omitted arguments. */
  function New(title: Value, content: Value, imageUrls: Value, userId: Value): NoteRequest {
    NoteRequest(
      WithDefault(title, Str("")), WithDefault(content, Str("")),
      WithDefault(imageUrls, Arr([])), WithDefault(userId, Null))
  }

  /** A title the rules accept: not blank and at most 255 characters. */
  predicate GoodTitle(v: Value) {
    !Blank(v) && v.Str? && |v.s| <= MaxTitleLength
  }

  /** `imageUrls` passes when it is falsy or an array. */
  predicate GoodImageUrls(v: Value) {
    !Truthy(v) || v.Arr?
  }

  function TitleErrors(v: Value): (r: Result<seq<FieldError>>)
    ensures r.Throw? <==> Untrimmable(v)
    ensures r.Ok? ==> |r.value| <= 1 && (r.value == [] <==> GoodTitle(v))
    ensures r.Ok? && Blank(v) ==> r.value == [FieldError("title", TitleRequired)]
    ensures r.Ok? && !Blank(v) && |v.s| > MaxTitleLength ==> r.value == [FieldError("title", TitleTooLong)]
  {
    var blank :- IsBlank(v);
    if blank then Ok([FieldError("title", TitleRequired)])
    else if |v.s| > MaxTitleLength then Ok([FieldError("title", TitleTooLong)])
    else Ok([])
  }

  /** `validate()`: the title is required and at most 255 characters long,
      `imageUrls` must be an array when it is set, and the content is never
      checked. */
  function Validate(m: NoteRequest): (r: Result<Verdict>)
    ensures r.Throw? <==> Untrimmable(m.title)
    ensures r.Throw? ==> r.error == TypeError
    ensures r.Ok? ==>
              r.value.errors
              == TitleErrors(m.title).value
              + (if GoodImageUrls(m.imageUrls) then [] else [FieldError("imageUrls", ImageUrlsNotArray)])
    ensures r.Ok? ==> (r.value.isValid <==> GoodTitle(m.title) && GoodImageUrls(m.imageUrls))
  {
    var titleErrors :- TitleErrors(m.title);
    var urlErrors := ErrorIf(Truthy(m.imageUrls) && !m.imageUrls.Arr?, "imageUrls", ImageUrlsNotArray);
    Ok(FromErrors(titleErrors + urlErrors))
  }

  /** `toJSON()`: title, content and imageUrls always, imageUrls replaced by
      [] when falsy, and userId only when it is truthy. */
  function ToJson(m: NoteRequest): (r: Value)
    ensures r.Obj?
    ensures {"title", "content", "imageUrls"} <= r.props.Keys <= {"title", "content", "imageUrls", "userId"}
    ensures r.props["title"] == m.title && r.props["content"] == m.content
    ensures r.props["imageUrls"] == (if Truthy(m.imageUrls) then m.imageUrls else Arr([]))
    ensures "userId" in r.props <==> Truthy(m.userId)
    ensures "userId" in r.props ==> r.props["userId"] == m.userId
  {
    var json := map["title" := m.title, "content" := m.content, "imageUrls" := Or(m.imageUrls, Arr([]))];
    if Truthy(m.userId) then Obj(json["userId" := m.userId]) else Obj(json)
  }

  /** `NoteRequestModel.fromFormData(formData)`: each field is read from the
      form data, imageUrls falls back to [] when falsy, and the rest take the
      constructor's defaults when undefined. */
  function FromFormData(formData: Value): (r: Result<NoteRequest>)
    ensures r.Throw? <==> Nullish(formData)
    ensures r.Ok? && formData.Obj? ==>
      && r.value.title == WithDefault(Field(formData.props, "title"), Str(""))
      && r.value.content == WithDefault(Field(formData.props, "content"), Str(""))
      && r.value.imageUrls == Or(Field(formData.props, "imageUrls"), Arr([]))
      && r.value.userId == WithDefault(Field(formData.props, "userId"), Null)
    ensures r.Ok? && !formData.Obj? ==> r.value == NoteRequest(Str(""), Str(""), Arr([]), Null)
  {
    var title :- Get(formData, "title");
    var content := Get(formData, "content").value;
    var imageUrls := Get(formData, "imageUrls").value;
    var userId := Get(formData, "userId").value;
    Ok(New(title, content, Or(imageUrls, Arr([])), userId))
  }

  /** `NoteRequestModel.create(title, content, userId, imageUrls = [])`: the
      factory takes userId before imageUrls, the constructor the other way
      round; each still lands in its own field. */
  function Create(title: Value, content: Value, userId: Value, imageUrls: Value): (r: NoteRequest)
    ensures r.userId == (if userId.Undefined? then Null else userId)
    ensures r.imageUrls == (if imageUrls.Undefined? then Arr([]) else imageUrls)
    ensures r.title == (if title.Undefined? then Str("") else title)
    ensures r.content == (if content.Undefined? then Str("") else content)
  {
    New(title, content, WithDefault(imageUrls, Arr([])), userId)
  }

  /** A request built by `create` from strings, with a truthy userId, sends
      that userId and the given image URLs. */
  lemma CreateSendsUserIdAndUrls(title: string, content: string, userId: string, urls: seq<Value>)
    requires userId != ""
    ensures ToJson(Create(Str(title), Str(content), Str(userId), Arr(urls))).props
         == map["title" := Str(title), "content" := Str(content), "imageUrls" := Arr(urls), "userId" := Str(userId)]
  {
  }
}
