/**
 * The auth service's registration and user serializers: the email field
 * (required, not blank, not already registered), the two password fields
 * (write-only, at least eight code points), the trimming of every text
 * field and the refusal of any text holding U+0000, the
 * password-confirmation check, the hand-over to `create_user` without the
 * confirmation, and the fields a user is shown with.
 *
 * Request data is a map from field name to the submitted text; the emails
 * already registered are the set `registered`.
 */
module UserSerializers {
  import opened Wrappers
  import opened Strings
  import opened Users
  import opened SerializerFields

  const MinPasswordLength: nat := 8
  const PasswordMismatch: string := "Las contraseñas no coinciden"
  /** The message of the unique-field validator derived from `User.email`. */
  const EmailTaken: string := "Usuario with this Correo electrónico already exists."
  const PasswordTooShort: string := "Ensure this field has at least 8 characters."

  const RegisterFieldNames: set<string> := {"email", "password", "password2", "first_name", "last_name"}
  const RequiredFieldNames: set<string> := {"email", "password", "password2"}
  const WriteOnlyFieldNames: set<string> := {"password", "password2"}
  const UserFieldNames: set<string> := {"id", "email", "first_name", "last_name", "date_joined"}
  const UserReadOnlyFieldNames: set<string> := {"id", "date_joined"}

  /**
   * A password field (`CharField(min_length=8)`): the text is trimmed, a
   * blank one is refused as blank; then the length validator and the
   * U+0000 validator run, in that order, and the first refusal is the one
   * reported. Otherwise the trimmed text is kept.
   */
  function ValidatePassword(value: string): (r: Result<string, string>)
    ensures r.Success? <==> |Strip(value)| >= MinPasswordLength && Nul !in value
    ensures r.Success? ==> r.value == Strip(value) && IsStripped(r.value) && Nul !in r.value
    ensures r.Failure? ==> r.error == if AllSpace(value) then FieldBlank
                                      else if |Strip(value)| < MinPasswordLength then PasswordTooShort
                                      else NullCharacters
  {
    StripEmptyIffAllSpace(value);
    NulIsNotSpace(value);
    if Strip(value) == [] then Failure(FieldBlank)
    else if |Strip(value)| < MinPasswordLength then Failure(PasswordTooShort)
    else if Nul in Strip(value) then Failure(NullCharacters)
    else Success(Strip(value))
  }

  /** A password field's verdict on the request: required, then `ValidatePassword`. */
  function PasswordField(data: map<string, string>, field: string): (r: Result<string, string>)
    ensures r.Success? <==> field in data && ValidatePassword(data[field]).Success?
    ensures r.Success? ==> r.value == Strip(data[field])
    ensures r.Failure? ==> r.error == if field !in data then FieldRequired else ValidatePassword(data[field]).error
  {
    if field !in data then Failure(FieldRequired) else ValidatePassword(data[field])
  }

  /**
   * The email field derived from `User.email` (`unique=True`): required, not
   * blank, and then refused when the trimmed address is already registered
   * or holds U+0000; the uniqueness validator comes first, so its refusal
   * is the one reported when both apply.
   */
  function EmailField(data: map<string, string>, registered: set<string>): (r: Result<string, string>)
    ensures r.Success? <==> && "email" in data && !AllSpace(data["email"])
                            && Strip(data["email"]) !in registered && Nul !in data["email"]
    ensures r.Success? ==> r.value == Strip(data["email"]) && r.value != []
    ensures r.Failure? ==> r.error == if "email" !in data then FieldRequired
                                      else if AllSpace(data["email"]) then FieldBlank
                                      else if Strip(data["email"]) in registered then EmailTaken
                                      else NullCharacters
  {
    if "email" !in data then Failure(FieldRequired)
    else
      var email := data["email"];
      StripEmptyIffAllSpace(email);
      NulIsNotSpace(email);
      if Strip(email) == [] then Failure(FieldBlank)
      else if Strip(email) in registered then Failure(EmailTaken)
      else if Nul in Strip(email) then Failure(NullCharacters)
      else Success(Strip(email))
  }

  /**
   * A name field (`first_name`, `last_name`: optional, `blank=True`): absent
   * or blank is fine, and only text holding U+0000 is refused.
   */
  function OptionalNameField(data: map<string, string>, field: string): (r: Result<string, string>)
    ensures r.Success? <==> field !in data || Nul !in data[field]
    ensures r.Success? && field in data ==> r.value == Strip(data[field])
    ensures r.Failure? ==> r.error == NullCharacters
  {
    if field in data then CleanText(data[field], true) else Success([])
  }

  /**
   * The errors of the field-level checks, which all run before `validate`:
   * each field is reported under its own name, with the message of its
   * first refusal, and a request with no such error meets every one.
   */
  function FieldLevelErrors(data: map<string, string>, registered: set<string>): (e: FieldErrors)
    ensures e.Keys <= RegisterFieldNames
    ensures ("email" in e <==> EmailField(data, registered).Failure?)
            && ("email" in e ==> e["email"] == EmailField(data, registered).error)
    ensures ("password" in e <==> PasswordField(data, "password").Failure?)
            && ("password" in e ==> e["password"] == PasswordField(data, "password").error)
    ensures ("password2" in e <==> PasswordField(data, "password2").Failure?)
            && ("password2" in e ==> e["password2"] == PasswordField(data, "password2").error)
    ensures ("first_name" in e <==> "first_name" in data && Nul in data["first_name"])
            && ("first_name" in e ==> e["first_name"] == NullCharacters)
    ensures ("last_name" in e <==> "last_name" in data && Nul in data["last_name"])
            && ("last_name" in e ==> e["last_name"] == NullCharacters)
    ensures e.Keys == {} <==> && "email" in data && "password" in data && "password2" in data
                              && !AllSpace(data["email"]) && Strip(data["email"]) !in registered
                              && |Strip(data["password"])| >= MinPasswordLength
                              && |Strip(data["password2"])| >= MinPasswordLength
                              && Nul !in data["email"] && Nul !in data["password"] && Nul !in data["password2"]
                              && ("first_name" in data ==> Nul !in data["first_name"])
                              && ("last_name" in data ==> Nul !in data["last_name"])
  {
    var e := Collect5("email", EmailField(data, registered),
                      "password", PasswordField(data, "password"),
                      "password2", PasswordField(data, "password2"),
                      "first_name", OptionalNameField(data, "first_name"),
                      "last_name", OptionalNameField(data, "last_name"));
    assert e.Keys == {} <== forall k | k in RegisterFieldNames :: k !in e;
    e
  }

  /** With no field-level error, every submitted field of the form cleans to its trimmed text. */
  lemma RegisterFieldsClean(data: map<string, string>, registered: set<string>, k: string)
    requires FieldLevelErrors(data, registered).Keys == {}
    requires k in data && k in RegisterFieldNames
    ensures CleanText(data[k], true).Success?
  {
    assert Nul !in data[k];
  }

  /**
   * `RegisterSerializer` validation: the field checks, then `validate`,
   * which refuses two different passwords with an error keyed `password`
   * and otherwise returns the attributes. Every attribute is the trimmed
   * text of its field (`first_name` and `last_name` may be blank).
   */
  function ValidateRegister(data: map<string, string>, registered: set<string>)
    : (r: Result<map<string, string>, FieldErrors>)
    ensures r.Success? <==> && FieldLevelErrors(data, registered).Keys == {}
                            && Strip(data["password"]) == Strip(data["password2"])
    ensures r.Failure? ==> r.error.Keys != {}
    ensures FieldLevelErrors(data, registered).Keys != {} ==> r == Failure(FieldLevelErrors(data, registered))
    ensures FieldLevelErrors(data, registered).Keys == {} && Strip(data["password"]) != Strip(data["password2"]) ==>
              r == Failure(map["password" := PasswordMismatch])
    ensures r.Success? ==> && r.value.Keys == data.Keys * RegisterFieldNames
                           && (forall k | k in r.value :: r.value[k] == Strip(data[k]))
                           && r.value["email"] != [] && r.value["email"] !in registered
                           && r.value["password"] == r.value["password2"]
                           && (forall k | k in r.value :: Nul !in r.value[k])
  {
    var errors := FieldLevelErrors(data, registered);
    if errors.Keys != {} then Failure(errors)
    else
      assert forall k | k in data && k in RegisterFieldNames :: CleanText(data[k], true).Success? by {
        forall k | k in data && k in RegisterFieldNames
          ensures CleanText(data[k], true).Success?
        {
          RegisterFieldsClean(data, registered, k);
        }
      }
      var attrs := map k | k in data && k in RegisterFieldNames :: CleanText(data[k], true).value;
      if attrs["password"] != attrs["password2"] then
        assert "password" in map["password" := PasswordMismatch];
        Failure(map["password" := PasswordMismatch])
      else
        StripEmptyIffAllSpace(data["email"]);
        Success(attrs)
  }

  /**
   * `RegisterSerializer.create`: the confirmation is popped and the rest is
   * passed to `create_user` by keyword, so the email and password bind its
   * parameters and the names become extra fields.
   */
  function RegisterCreate(validated: map<string, string>, normalize: string -> string): (r: Result<NewUser, string>)
    requires RequiredFieldNames <= validated.Keys
    ensures r.Success? <==> validated["email"] != []
    ensures r.Success? ==> && r.value.email == normalize(validated["email"])
                           && r.value.password == Some(validated["password"])
                           && r.value.extraFields.Keys == validated.Keys - RequiredFieldNames
                           && "password2" !in r.value.extraFields
  {
    var rest := validated - {"password2"};
    CreateUser(rest["email"], Some(rest["password"]),
               map k | k in rest && k != "email" && k != "password" :: Text(rest[k]), normalize)
  }

  /**
   * A registration that passes validation always creates a user: the email
   * field already refused a blank address, so `create_user`'s own check
   * never fires. The user gets the trimmed email and the trimmed password.
   */
  lemma RegistrationCreatesUser(data: map<string, string>, registered: set<string>, normalize: string -> string)
    requires ValidateRegister(data, registered).Success?
    ensures RequiredFieldNames <= ValidateRegister(data, registered).value.Keys
    ensures var r := RegisterCreate(ValidateRegister(data, registered).value, normalize);
            && r.Success?
            && r.value.email == normalize(Strip(data["email"]))
            && r.value.password == Some(Strip(data["password"]))
  {
  }

  /** Passwords that differ only in surrounding whitespace are trimmed to the same value and accepted as matching. */
  lemma TrimmedPasswordsMatch(email: string, password: string, registered: set<string>)
    requires !AllSpace(email) && Strip(email) !in registered && Nul !in email
    requires |password| >= MinPasswordLength && IsStripped(password) && Nul !in password
    ensures ValidateRegister(map["email" := email, "password" := password, "password2" := password + " "], registered).Success?
  {
    var padded := password + " ";
    assert padded[..|password|] == password;
    assert IsSpace(padded[|padded| - 1]);
    StripStripped(password);
    assert padded[0] == password[0];
    assert SkipSpaceBack(padded, 0, |padded|) == |password|;
  }

  /**
   * What the serializers let out and in: registration never echoes a
   * password, the user serializer shows only its five fields, and a client
   * can set neither the id nor the registration date.
   */
  lemma SerializerFieldSets(record: map<string, string>)
    ensures var out := SerializerFields.Project(record, RegisterFieldNames, WriteOnlyFieldNames);
            "password" !in out && "password2" !in out
    ensures SerializerFields.Project(record, UserFieldNames, {}).Keys <= UserFieldNames
    ensures var accepted := SerializerFields.Project(record, UserFieldNames, UserReadOnlyFieldNames);
            "id" !in accepted && "date_joined" !in accepted
            && forall k | k in record && k in {"email", "first_name", "last_name"} :: k in accepted
  {
  }
}
