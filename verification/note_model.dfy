/** A note as the backend returns it: `NoteModel`, its mapping from JSON and
    its display helpers. */
module NoteModel {
  import opened Js

  datatype Note = Note(
    id: Value,
    title: Value,
    content: Value,
    imageUrls: Value,
    userId: Value,
    username: Value,
    createdAt: Value,
    updatedAt: Value)

  /** `new NoteModel(...)`: undefined arguments take the constructor's
      defaults null, '', '', [], null, '', null, null. */
  function New(id: Value, title: Value, content: Value, imageUrls: Value,
               userId: Value, username: Value, createdAt: Value, updatedAt: Value): Note
  {
    Note(
      WithDefault(id, Null), WithDefault(title, Str("")), WithDefault(content, Str("")),
      WithDefault(imageUrls, Arr([])), WithDefault(userId, Null), WithDefault(username, Str("")),
      WithDefault(createdAt, Null), WithDefault(updatedAt, Null))
  }

  /** What `fromJSON` makes of the property `key` of a record: the value when
      it is present and not undefined, the constructor's default otherwise. */
  function Copied(props: map<string, Value>, key: string, dflt: Value): Value {
    if key in props && !props[key].Undefined? then props[key] else dflt
  }

  /** `NoteModel.fromJSON(data)`: every field is copied from the record;
      imageUrls falls back to [] when falsy, the others take the constructor's
      default when absent. Only null and undefined records throw. */
  function FromJson(data: Value): (r: Result<Note>)
    ensures r.Throw? <==> Nullish(data)
    ensures r.Throw? ==> r.error == TypeError
    ensures r.Ok? && data.Obj? ==>
      && r.value.id == Copied(data.props, "id", Null)
      && r.value.title == Copied(data.props, "title", Str(""))
      && r.value.content == Copied(data.props, "content", Str(""))
      && r.value.userId == Copied(data.props, "userId", Null)
      && r.value.username == Copied(data.props, "username", Str(""))
      && r.value.createdAt == Copied(data.props, "createdAt", Null)
      && r.value.updatedAt == Copied(data.props, "updatedAt", Null)
    ensures r.Ok? && data.Obj? ==>
      r.value.imageUrls == (if Truthy(Field(data.props, "imageUrls")) then data.props["imageUrls"] else Arr([]))
    ensures r.Ok? ==> Truthy(r.value.imageUrls)
    ensures r.Ok? && !data.Obj? ==> r.value == Note(Null, Str(""), Str(""), Arr([]), Null, Str(""), Null, Null)
  {
    var id :- Get(data, "id");
    Ok(New(
      id, Get(data, "title").value, Get(data, "content").value,
      Or(Get(data, "imageUrls").value, Arr([])), Get(data, "userId").value,
      Get(data, "username").value, Get(data, "createdAt").value, Get(data, "updatedAt").value))
  }

  /** A record carrying every field maps to a note holding exactly those
      values, except that a falsy imageUrls becomes []. */
  lemma FromJsonCopiesCompleteRecord(id: Value, title: Value, content: Value, imageUrls: Value,
                                     userId: Value, username: Value, createdAt: Value, updatedAt: Value)
    requires !id.Undefined? && !title.Undefined? && !content.Undefined? && !userId.Undefined?
    requires !username.Undefined? && !createdAt.Undefined? && !updatedAt.Undefined?
    ensures FromJson(Obj(map[
              "id" := id, "title" := title, "content" := content, "imageUrls" := imageUrls,
              "userId" := userId, "username" := username, "createdAt" := createdAt, "updatedAt" := updatedAt]))
         == Ok(Note(id, title, content, if Truthy(imageUrls) then imageUrls else Arr([]),
                    userId, username, createdAt, updatedAt))
  {
  }

  /** `getFormattedCreatedAt()` and `getFormattedUpdatedAt()`, applied to
      `createdAt` and `updatedAt`: '' for a missing timestamp, otherwise the
      locale rendering `format` of it. */
  function Formatted(timestamp: Value, format: Value -> string): (r: string)
    ensures !Truthy(timestamp) ==> r == ""
    ensures Truthy(timestamp) ==> r == format(timestamp)
  {
    if !Truthy(timestamp) then "" else format(timestamp)
  }

  /** `content.substring(0, end)`: `end` is clamped into [0, |content|]. */
  function Substring(content: string, end: int): (r: string)
    ensures |r| == if end < 0 then 0 else if end > |content| then |content| else end
    ensures r <= content
  {
    if end < 0 then "" else if end > |content| then content else content[..end]
  }

  /** `getContentPreview(maxLength)` on string or falsy content: '' when the
      content is empty or missing, the content itself when it fits, otherwise
      its first `maxLength` characters followed by "...". A truthy content
      that is not a string has no `substring`: the call throws once the
      length test fails, which for anything but an array happens at once. */
  function ContentPreview(content: Value, maxLength: int): (r: Result<Value>)
    ensures !Truthy(content) ==> r == Ok(Str(""))
    ensures content.Str? && 0 < |content.s| <= maxLength ==> r == Ok(content)
    ensures content.Str? && |content.s| > maxLength && maxLength >= 0 ==>
              && r.Ok? && r.value.Str?
              && |r.value.s| == maxLength + 3
              && r.value.s[..maxLength] == content.s[..maxLength]
              && r.value.s[maxLength..] == "..."
    ensures content.Str? && |content.s| > 0 && maxLength < 0 ==> r == Ok(Str("..."))
    ensures r.Throw? <==> Truthy(content) && !content.Str? && !(content.Arr? && |content.elems| <= maxLength)
  {
    if !Truthy(content) then Ok(Str(""))
    else match content
      case Str(s) =>
        if |s| <= maxLength then Ok(content)
        else
          var head := Substring(s, maxLength);
          assert maxLength < 0 ==> head + "..." == "...";
          Ok(Str(head + "..."))
      case Arr(es) => if |es| <= maxLength then Ok(content) else Throw(TypeError)
      case _ => Throw(TypeError)
  }

  /** `length > 0` for the value of a `length` property: numbers compare
      as themselves and booleans as 0 or 1; undefined, null, arrays and
      objects are never positive. */
  predicate PositiveLength(v: Value) {
    match v
    case Num(n) => n > 0
    case Bool(b) => b
    case _ => false
  }

  /** `hasImages()`, read as a condition: imageUrls is truthy and its length
      is positive. Strings and arrays have a length; an object has one when
      it carries its own `length` property; numbers and booleans have none,
      and an undefined length is never positive. */
  predicate HasImages(n: Note) {
    && Truthy(n.imageUrls)
    && match n.imageUrls
       case Arr(es) => |es| > 0
       case Str(s) => |s| > 0
       case Obj(p) => PositiveLength(Field(p, "length"))
       case _ => false
  }

  /** A note mapped from JSON has images exactly when the record carried a
      non-empty array or string of image URLs, or an object whose own
      `length` is positive. */
  lemma HasImagesAfterFromJson(data: Value)
    requires data.Obj?
    ensures FromJson(data).Ok?
    ensures HasImages(FromJson(data).value) <==>
      ("imageUrls" in data.props
       && ((data.props["imageUrls"].Arr? && |data.props["imageUrls"].elems| > 0)
           || (data.props["imageUrls"].Str? && |data.props["imageUrls"].s| > 0)
           || (data.props["imageUrls"].Obj? && "length" in data.props["imageUrls"].props
               && ((data.props["imageUrls"].props["length"].Num? && data.props["imageUrls"].props["length"].n > 0)
                   || data.props["imageUrls"].props["length"] == Bool(true)))))
  {
  }
}
