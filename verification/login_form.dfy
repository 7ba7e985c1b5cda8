/** `LoginForm`: the controlled form's field updates and its submit gate.
    The parent's `onSubmit` is modelled by recording the form data it would
    receive. */
module LoginForm {
  import opened Js
  import LoginModel

  /** The `formData` state object: its own properties. */
  type FormData = map<string, Value>

  /** The form's state: its data and the error line it shows. */
  datatype Form = Form(data: FormData, error: string)

  const Initial := Form(map["username" := Str(""), "password" := Str("")], "")
  const FillInAll := "Please fill in all fields"

  /** What a submit leaves behind: the form afterwards and the data each
      `onSubmit` call received, in call order. */
  datatype Submission = Submission(form: Form, calls: seq<FormData>)

  /** `handleChange(e)`: `{ ...prev, [name]: value }`. */
  function HandleChange(f: Form, name: string, value: Value): (r: Form)
    ensures r.error == f.error
    ensures r.data.Keys == f.data.Keys + {name}
    ensures r.data[name] == value
    ensures forall k :: k in f.data && k != name ==> r.data[k] == f.data[k]
  {
    Form(f.data[name := value], f.error)
  }

  /** The gate: both fields truthy. There is no trim, so a field of spaces
      passes. */
  predicate Filled(data: FormData) {
    Truthy(Field(data, "username")) && Truthy(Field(data, "password"))
  }

  /** `handleSubmit(e)`: an empty field shows "Please fill in all fields"
      and calls nothing; otherwise the error is cleared and `onSubmit`, when
      the parent passed one, is called once with the form data. */
  function HandleSubmit(f: Form, hasOnSubmit: bool): (r: Submission)
    ensures r.form.data == f.data
    ensures !Filled(f.data) ==> r.form.error == FillInAll && r.calls == []
    ensures Filled(f.data) ==> r.form.error == ""
    ensures Filled(f.data) && hasOnSubmit ==> r.calls == [f.data]
    ensures !hasOnSubmit ==> r.calls == []
  {
    if !Truthy(Field(f.data, "username")) || !Truthy(Field(f.data, "password")) then
      Submission(Form(f.data, FillInAll), [])
    else
      Submission(Form(f.data, ""), if hasOnSubmit then [f.data] else [])
  }

  // ---------------------------------------------------------------------------
  // Properties of the form

  /** Submitting the untouched form is refused. */
  lemma InitialFormIsRefused(hasOnSubmit: bool)
    ensures HandleSubmit(Initial, hasOnSubmit) == Submission(Form(Initial.data, FillInAll), [])
  {
  }

  /** Typing into one field never changes the other. */
  lemma ChangeKeepsOtherField(f: Form, value: Value)
    requires "password" in f.data
    ensures HandleChange(f, "username", value).data["password"] == f.data["password"]
    ensures HandleChange(f, "username", value).data["username"] == value
  {
  }

  /** Fields of spaces pass the form's gate and reach `onSubmit`, yet the
      login model refuses the same data as blank. */
  lemma SpacesPassGateButNotModel(username: string, password: string)
    requires username != "" && AllSpace(username)
    requires password != "" && AllSpace(password)
    ensures var f := HandleChange(HandleChange(Initial, "username", Str(username)), "password", Str(password));
      && HandleSubmit(f, true).calls == [f.data]
      && HandleSubmit(f, true).form.error == ""
      && LoginModel.FromFormData(Obj(f.data)) == Ok(LoginModel.Login(Str(username), Str(password)))
      && LoginModel.Validate(LoginModel.Login(Str(username), Str(password))).Ok?
      && !LoginModel.Validate(LoginModel.Login(Str(username), Str(password))).value.isValid
  {
  }
}
