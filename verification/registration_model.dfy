/** The registration request: `RegistrationModel` with its three field rules
    (username length, email shape, password length), its JSON body and its
    construction from form data. */
module RegistrationModel {
  import opened Js
  import opened Validation

  datatype Registration = Registration(username: Value, email: Value, password: Value)

  const UsernameRequired := "Username is required"
  const UsernameTooShort := "Username must be at least 3 characters"
  const UsernameTooLong := "Username must not exceed 100 characters"
  const EmailRequired := "Email is required"
  const EmailMalformed := "Please enter a valid email address"
  const PasswordRequired := "Password is required"
  const PasswordTooShort := "Password must be at least 8 characters"

  /** `new RegistrationModel(username, email, password)`: an omitted argument
      becomes ''. */
  function New(username: Value, email: Value, password: Value): Registration {
    Registration(WithDefault(username, Str("")), WithDefault(email, Str("")), WithDefault(password, Str("")))
  }

  // ---------------------------------------------------------------------------
  // The email pattern /^[^\s@]+@[^\s@]+\.[^\s@]+$/

  /** `[^\s@]`. */
  predicate Plain(c: char) {
    !IsSpace(c) && c != '@'
  }

  /** `[^\s@]+`. */
  predicate Run(t: string) {
    |t| > 0 && forall k :: 0 <= k < |t| ==> Plain(t[k])
  }

  /** The pattern matches `s` split at an '@' at index `at` and a '.' at
      index `dot`. */
  predicate SplitsAsEmail(s: string, at: int, dot: int) {
    && 0 <= at < dot < |s|
    && s[at] == '@' && s[dot] == '.'
    && Run(s[..at]) && Run(s[at + 1..dot]) && Run(s[dot + 1..])
  }

  /** The language of the pattern: some way of reading `s` as
      run '@' run '.' run. */
  ghost predicate MatchesEmailPattern(s: string) {
    exists at, dot :: SplitsAsEmail(s, at, dot)
  }

  /** The index of the first `c` in `s`, or `|s|` when there is none. */
  function IndexOf(s: string, c: char): (i: nat)
    ensures i <= |s|
    ensures i < |s| ==> s[i] == c
    ensures c !in s[..i]
  {
    if |s| == 0 then 0
    else if s[0] == c then 0
    else 1 + IndexOf(s[1..], c)
  }

  /** The email test as a checklist: no whitespace, exactly one '@'
      with something before it, and after it a '.' with text on both sides. */
  predicate WellFormedEmail(s: string) {
    && (forall i | 0 <= i < |s| :: !IsSpace(s[i]))
    && multiset(s)['@'] == 1
    && var at := IndexOf(s, '@');
       && 0 < at < |s|
       && exists dot | at + 1 < dot < |s| - 1 :: s[dot] == '.'
  }

  /** The scan accepts exactly the strings the pattern matches. */
  lemma WellFormedEmailMatchesPattern(s: string)
    ensures WellFormedEmail(s) <==> MatchesEmailPattern(s)
  {
    if WellFormedEmail(s) {
      var at := IndexOf(s, '@');
      var dot :| at + 1 < dot < |s| - 1 && s[dot] == '.';
      OnlyOneAt(s, at);
      assert SplitsAsEmail(s, at, dot);
    }
    if MatchesEmailPattern(s) {
      var at, dot :| SplitsAsEmail(s, at, dot);
      SplitHasOneAt(s, at, dot);
    }
  }

  /** With a single '@' at `at`, no other character is an '@'. */
  lemma OnlyOneAt(s: string, at: int)
    requires 0 <= at < |s| && s[at] == '@' && multiset(s)['@'] == 1
    ensures '@' !in s[at + 1..]
  {
    assert s == s[..at] + [s[at]] + s[at + 1..];
    assert multiset(s) == multiset(s[..at]) + multiset{'@'} + multiset(s[at + 1..]);
  }

  /** A string the pattern splits is free of whitespace, has one '@', and
      that '@' is the first one. */
  lemma SplitHasOneAt(s: string, at: int, dot: int)
    requires SplitsAsEmail(s, at, dot)
    ensures WellFormedEmail(s)
  {
    var local, mid, top := s[..at], s[at + 1..dot], s[dot + 1..];
    assert s == local + ['@'] + mid + ['.'] + top;
    assert '@' !in local && '@' !in mid && '@' !in top by {
      assert forall k :: 0 <= k < |local| ==> Plain(local[k]);
      assert forall k :: 0 <= k < |mid| ==> Plain(mid[k]);
      assert forall k :: 0 <= k < |top| ==> Plain(top[k]);
    }
    assert multiset(s)['@'] == 1 by {
      assert multiset(s) == multiset(local) + multiset{'@'} + multiset(mid) + multiset{'.'} + multiset(top);
    }
    forall i | 0 <= i < |s| ensures !IsSpace(s[i]) {
      if i < at {
        assert s[i] == local[i];
      } else if at < i < dot {
        assert s[i] == mid[i - at - 1];
      } else if dot < i {
        assert s[i] == top[i - dot - 1];
      }
    }
  }

  // ---------------------------------------------------------------------------
  // The three field rules of validate()

  /** A username the rules accept: not blank, 3 to 100 characters measured
      on the untrimmed string. */
  predicate GoodUsername(v: Value) {
    !Blank(v) && v.Str? && 3 <= |v.s| <= 100
  }

  /** An email the rules accept: not blank and matched by the pattern. */
  ghost predicate GoodEmail(v: Value) {
    !Blank(v) && v.Str? && MatchesEmailPattern(v.s)
  }

  /** A password the rules accept: not blank and at least 8 characters. */
  predicate GoodPassword(v: Value) {
    !Blank(v) && v.Str? && |v.s| >= 8
  }

  function UsernameErrors(v: Value): (r: Result<seq<FieldError>>)
    ensures r.Throw? <==> Untrimmable(v)
    ensures r.Ok? ==> |r.value| <= 1 && (r.value == [] <==> GoodUsername(v))
    ensures r.Ok? && Blank(v) ==> r.value == [FieldError("username", UsernameRequired)]
    ensures r.Ok? && !Blank(v) && |v.s| < 3 ==> r.value == [FieldError("username", UsernameTooShort)]
    ensures r.Ok? && !Blank(v) && |v.s| > 100 ==> r.value == [FieldError("username", UsernameTooLong)]
  {
    var blank :- IsBlank(v);
    if blank then Ok([FieldError("username", UsernameRequired)])
    else if |v.s| < 3 then Ok([FieldError("username", UsernameTooShort)])
    else if |v.s| > 100 then Ok([FieldError("username", UsernameTooLong)])
    else Ok([])
  }

  function EmailErrors(v: Value): (r: Result<seq<FieldError>>)
    ensures r.Throw? <==> Untrimmable(v)
    ensures r.Ok? ==> |r.value| <= 1 && (r.value == [] <==> GoodEmail(v))
    ensures r.Ok? && Blank(v) ==> r.value == [FieldError("email", EmailRequired)]
    ensures r.Ok? && !Blank(v) && !MatchesEmailPattern(v.s) ==> r.value == [FieldError("email", EmailMalformed)]
  {
    var blank :- IsBlank(v);
    if blank then Ok([FieldError("email", EmailRequired)])
    else
      WellFormedEmailMatchesPattern(v.s);
      if !WellFormedEmail(v.s) then Ok([FieldError("email", EmailMalformed)])
      else Ok([])
  }

  function PasswordErrors(v: Value): (r: Result<seq<FieldError>>)
    ensures r.Throw? <==> Untrimmable(v)
    ensures r.Ok? ==> |r.value| <= 1 && (r.value == [] <==> GoodPassword(v))
    ensures r.Ok? && Blank(v) ==> r.value == [FieldError("password", PasswordRequired)]
    ensures r.Ok? && !Blank(v) && |v.s| < 8 ==> r.value == [FieldError("password", PasswordTooShort)]
  {
    var blank :- IsBlank(v);
    if blank then Ok([FieldError("password", PasswordRequired)])
    else if |v.s| < 8 then Ok([FieldError("password", PasswordTooShort)])
    else Ok([])
  }

  /** `validate()`: the three fields are checked independently, each failing
      field contributes exactly one message, and the request is valid
      exactly when every field is good. */
  function Validate(m: Registration): (r: Result<Verdict>)
    ensures r.Throw? <==> Untrimmable(m.username) || Untrimmable(m.email) || Untrimmable(m.password)
    ensures r.Throw? ==> r.error == TypeError
    ensures r.Ok? ==> |r.value.errors| <= 3
    ensures r.Ok? ==>
              (r.value.isValid <==> GoodUsername(m.username) && GoodEmail(m.email) && GoodPassword(m.password))
  {
    var user :- UsernameErrors(m.username);
    var email :- EmailErrors(m.email);
    var pass :- PasswordErrors(m.password);
    Ok(FromErrors(user + email + pass))
  }

  /** The errors come in the order username, email, password, one per
      failing field. */
  lemma ValidateErrorsInFieldOrder(m: Registration)
    ensures Validate(m).Ok? ==>
              Validate(m).value.errors
              == UsernameErrors(m.username).value + EmailErrors(m.email).value + PasswordErrors(m.password).value
  {
  }

  /** `toJSON()`: exactly the three fields, unchanged. */
  function ToJson(m: Registration): (r: Value)
    ensures r.Obj? && r.props.Keys == {"username", "email", "password"}
    ensures r.props["username"] == m.username
    ensures r.props["email"] == m.email
    ensures r.props["password"] == m.password
  {
    Obj(map["username" := m.username, "email" := m.email, "password" := m.password])
  }

  /** `RegistrationModel.fromFormData(formData)`: the three fields are read
      from the form data; one that is absent or undefined becomes ''. */
  function FromFormData(formData: Value): (r: Result<Registration>)
    ensures r.Throw? <==> Nullish(formData)
    ensures r.Ok? && formData.Obj? ==>
      && r.value.username == WithDefault(Field(formData.props, "username"), Str(""))
      && r.value.email == WithDefault(Field(formData.props, "email"), Str(""))
      && r.value.password == WithDefault(Field(formData.props, "password"), Str(""))
    ensures r.Ok? && !formData.Obj? ==> r.value == Registration(Str(""), Str(""), Str(""))
  {
    var username :- Get(formData, "username");
    Ok(New(username, Get(formData, "email").value, Get(formData, "password").value))
  }

  /** Form data whose three fields are defined survives `fromFormData`
      followed by `toJSON` unchanged. */
  lemma FormDataRoundTrip(props: map<string, Value>)
    requires forall k :: k in {"username", "email", "password"} ==> k in props && !props[k].Undefined?
    ensures FromFormData(Obj(props)).Ok?
    ensures ToJson(FromFormData(Obj(props)).value)
         == Obj(map k | k in {"username", "email", "password"} :: props[k])
  {
    var r := ToJson(FromFormData(Obj(props)).value);
    assert "username" in {"username", "email", "password"};
    assert "email" in {"username", "email", "password"};
    assert "password" in {"username", "email", "password"};
    assert r.props == map k | k in {"username", "email", "password"} :: props[k];
  }
}
