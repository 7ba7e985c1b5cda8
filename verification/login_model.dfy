/** The login request: `LoginModel` with its validator, its JSON body and
    its construction from form data. */
module LoginModel {
  import opened Js
  import opened Validation

  datatype Login = Login(username: Value, password: Value)

  const UsernameRequired := "Username is required"
  const PasswordRequired := "Password is required"

  /** `new LoginModel(username, password)`: an omitted argument becomes ''. */
  function New(username: Value, password: Value): Login {
    Login(WithDefault(username, Str("")), WithDefault(password, Str("")))
  }

  /** `validate()`: each blank field contributes its own "required" message,
      username first; a truthy non-string field makes `trim` throw. */
  function Validate(m: Login): (r: Result<Verdict>)
    ensures r.Throw? <==> Untrimmable(m.username) || Untrimmable(m.password)
    ensures r.Throw? ==> r.error == TypeError
    ensures r.Ok? ==>
              r.value.errors
              == (if Blank(m.username) then [FieldError("username", UsernameRequired)] else [])
              + (if Blank(m.password) then [FieldError("password", PasswordRequired)] else [])
    ensures r.Ok? ==> (r.value.isValid <==> !Blank(m.username) && !Blank(m.password))
  {
    var userBlank :- IsBlank(m.username);
    var passBlank :- IsBlank(m.password);
    Ok(FromErrors(
      ErrorIf(userBlank, "username", UsernameRequired)
      + ErrorIf(passBlank, "password", PasswordRequired)))
  }

  /** `toJSON()`: exactly the two credentials, unchanged. */
  function ToJson(m: Login): (r: Value)
    ensures r.Obj? && r.props.Keys == {"username", "password"}
    ensures r.props["username"] == m.username && r.props["password"] == m.password
  {
    Obj(map["username" := m.username, "password" := m.password])
  }

  /** `LoginModel.fromFormData(formData)`: the two fields are read from the
      form data; one that is absent or undefined becomes ''. Reading from
      null or undefined throws. */
  function FromFormData(formData: Value): (r: Result<Login>)
    ensures r.Throw? <==> Nullish(formData)
    ensures r.Ok? && formData.Obj? ==>
      && r.value.username == WithDefault(Field(formData.props, "username"), Str(""))
      && r.value.password == WithDefault(Field(formData.props, "password"), Str(""))
    ensures r.Ok? && !formData.Obj? ==> r.value == Login(Str(""), Str(""))
  {
    var username :- Get(formData, "username");
    Ok(New(username, Get(formData, "password").value))
  }

  /** Form data whose two fields are defined survives `fromFormData`
      followed by `toJSON` unchanged. */
  lemma FormDataRoundTrip(props: map<string, Value>)
    requires "username" in props && !props["username"].Undefined?
    requires "password" in props && !props["password"].Undefined?
    ensures FromFormData(Obj(props)).Ok?
    ensures ToJson(FromFormData(Obj(props)).value)
         == Obj(map["username" := props["username"], "password" := props["password"]])
  {
  }

  /** Two blank credentials fail with both messages, username first. */
  lemma BlankCredentialsVerdict(username: string, password: string)
    requires AllSpace(username) && AllSpace(password)
    ensures Validate(Login(Str(username), Str(password)))
         == Ok(Verdict(false, [FieldError("username", UsernameRequired), FieldError("password", PasswordRequired)]))
  {
    var errors := [FieldError("username", UsernameRequired), FieldError("password", PasswordRequired)];
    assert [errors[0]] + [errors[1]] == errors;
  }

  /** Two credentials with a non-space character each pass. */
  lemma FilledCredentialsVerdict(username: string, password: string)
    requires !AllSpace(username) && !AllSpace(password)
    ensures Validate(Login(Str(username), Str(password))) == Ok(Verdict(true, []))
  {
  }
}
