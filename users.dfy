/**
 * The auth service's user manager (`create_user`, `create_superuser`) and
 * the name accessors of its user record.
 *
 * `normalize_email` and password hashing are library behaviour: the
 * normalisation is a parameter, and the password is carried as given to
 * `set_password`.
 */
module Users {
  import opened Wrappers
  import opened Strings

  /** A keyword argument's value, as far as the manager's checks tell values apart. */
  datatype Value = Bool(b: bool) | Text(s: string) | Number(n: int) | Null

  const EmailRequired: string := "El email es obligatorio"
  const StaffRequired: string := "Superuser debe tener is_staff=True."
  const SuperuserRequired: string := "Superuser debe tener is_superuser=True."

  /** The flags `create_superuser` defaults to True. */
  const SuperuserFlags: set<string> := {"is_staff", "is_superuser", "is_active"}

  /** What `create_user` builds its user from: the normalised email, the password, the remaining keywords. */
  datatype NewUser = NewUser(email: string, password: Option<string>, extraFields: map<string, Value>)

  /** `create_user`: an empty email is refused; otherwise the user is built from the normalised email. */
  function CreateUser(email: string, password: Option<string>, extraFields: map<string, Value>,
                      normalize: string -> string): (r: Result<NewUser, string>)
    ensures r.Failure? <==> email == []
    ensures r.Failure? ==> r.error == EmailRequired
    ensures r.Success? ==> r.value.email == normalize(email) && r.value.password == password
                           && r.value.extraFields == extraFields
  {
    if email == [] then Failure(EmailRequired) else Success(NewUser(normalize(email), password, extraFields))
  }

  /** `dict.setdefault`: adds `key` with `value` only when it is absent. */
  function SetDefault(fields: map<string, Value>, key: string, value: Value): (r: map<string, Value>)
    ensures r.Keys == fields.Keys + {key}
    ensures forall k | k in fields :: r[k] == fields[k]
    ensures key !in fields ==> r[key] == value
  {
    if key in fields then fields else fields[key := value]
  }

  /** The keywords after the three `setdefault` calls of `create_superuser`. */
  function SuperuserFields(extraFields: map<string, Value>): (r: map<string, Value>)
    ensures r.Keys == extraFields.Keys + SuperuserFlags
    ensures forall k | k in extraFields :: r[k] == extraFields[k]
    ensures forall k | k in SuperuserFlags && k !in extraFields :: r[k] == Bool(true)
  {
    SetDefault(SetDefault(SetDefault(extraFields, "is_staff", Bool(true)), "is_superuser", Bool(true)),
               "is_active", Bool(true))
  }

  /** `fields.get(key) is True`: only the boolean True passes, not 1 or "True". */
  predicate IsTrue(fields: map<string, Value>, key: string) {
    key in fields && fields[key] == Bool(true)
  }

  /** The flag is absent or explicitly True. */
  predicate DefaultsToTrue(extraFields: map<string, Value>, key: string) {
    key !in extraFields || extraFields[key] == Bool(true)
  }

  /**
   * `create_superuser`: the flags default to True; a staff or superuser flag
   * given as anything but True is refused (the staff flag checked first),
   * and then the email is checked as `create_user` checks it.
   */
  function CreateSuperuser(email: string, password: Option<string>, extraFields: map<string, Value>,
                           normalize: string -> string): (r: Result<NewUser, string>)
    ensures r.Success? <==> DefaultsToTrue(extraFields, "is_staff") && DefaultsToTrue(extraFields, "is_superuser")
                            && email != []
    ensures !DefaultsToTrue(extraFields, "is_staff") ==> r == Failure(StaffRequired)
    ensures DefaultsToTrue(extraFields, "is_staff") && !DefaultsToTrue(extraFields, "is_superuser") ==>
              r == Failure(SuperuserRequired)
    ensures DefaultsToTrue(extraFields, "is_staff") && DefaultsToTrue(extraFields, "is_superuser") && email == [] ==>
              r == Failure(EmailRequired)
    ensures r.Success? ==> && r.value.email == normalize(email) && r.value.password == password
                           && r.value.extraFields == SuperuserFields(extraFields)
                           && IsTrue(r.value.extraFields, "is_staff") && IsTrue(r.value.extraFields, "is_superuser")
                           && "is_active" in r.value.extraFields
  {
    var fields := SuperuserFields(extraFields);
    if !IsTrue(fields, "is_staff") then Failure(StaffRequired)
    else if !IsTrue(fields, "is_superuser") then Failure(SuperuserRequired)
    else CreateUser(email, password, fields, normalize)
  }

  /** With no flags given, a superuser is staff, superuser and active. */
  lemma SuperuserDefaults(email: string, password: Option<string>, normalize: string -> string)
    requires email != []
    ensures CreateSuperuser(email, password, map[], normalize).Success?
    ensures var fields := CreateSuperuser(email, password, map[], normalize).value.extraFields;
            IsTrue(fields, "is_staff") && IsTrue(fields, "is_superuser") && IsTrue(fields, "is_active")
  {
  }

  /** `is not True` refuses truthy values that are not the boolean True. */
  lemma TruthyFlagsAreRefused(email: string, password: Option<string>, normalize: string -> string)
    ensures CreateSuperuser(email, password, map["is_staff" := Number(1)], normalize) == Failure(StaffRequired)
    ensures CreateSuperuser(email, password, map["is_superuser" := Text("True")], normalize)
            == Failure(SuperuserRequired)
  {
  }

  datatype User = User(email: string, firstName: string, lastName: string)
  {
    /**
     * `get_full_name`: "first last" stripped, or the email when that is
     * empty; never surrounded by whitespace unless the email is.
     */
    function FullName(): (r: string)
      ensures Strip(firstName + " " + lastName) != [] ==> r == Strip(firstName + " " + lastName) && IsStripped(r)
      ensures Strip(firstName + " " + lastName) == [] ==> r == email
      ensures email != [] ==> r != []
      ensures IsStripped(email) ==> IsStripped(r)
    {
      var fullName := Strip(firstName + " " + lastName);
      if fullName != [] then fullName else email
    }

    /** `get_short_name`: the first name, or the email when the first name is empty. */
    function ShortName(): (r: string)
      ensures firstName != [] ==> r == firstName
      ensures firstName == [] ==> r == email
      ensures email != [] ==> r != []
    {
      if firstName != [] then firstName else email
    }
  }

  /** Without names, both accessors give the email. */
  lemma NamelessUserIsKnownByEmail(email: string)
    ensures User(email, "", "").FullName() == email
    ensures User(email, "", "").ShortName() == email
  {
    assert "" + " " + "" == " ";
    assert IsSpace(' ');
  }

  /** Two stripped, non-empty names give "first last" exactly. */
  lemma FullNameOfStrippedNames(email: string, first: string, last: string)
    requires first != [] && last != [] && IsStripped(first) && IsStripped(last)
    ensures User(email, first, last).FullName() == first + " " + last
  {
    var s := first + " " + last;
    assert s[0] == first[0] && s[|s| - 1] == last[|last| - 1];
    StripStripped(s);
  }

  /** A stripped first name alone gives the first name: the separating space is stripped away. */
  lemma {:induction false} FullNameOfFirstNameOnly(email: string, first: string)
    requires first != [] && IsStripped(first)
    ensures User(email, first, "").FullName() == first
  {
    var s := first + " " + "";
    assert s == first + " ";
    assert IsSpace(s[|s| - 1]) && !IsSpace(s[|s| - 2]) && !IsSpace(s[0]);
    assert StripStart(s) == 0;
    assert SkipSpaceBack(s, 0, |s|) == SkipSpaceBack(s, 0, |s| - 1) == |first|;
    assert s[..|first|] == first;
  }
}
