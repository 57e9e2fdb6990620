/**
 * Input validation of the contact and notification create requests: every
 * text field is trimmed and, unless optional, refused when blank, and any
 * text holding U+0000 is refused; the declared validators then refuse a
 * contact message shorter than ten characters, and the field lists make
 * id, status and creation time read-only.
 */
module NotificationSerializers {
  import opened Wrappers
  import opened Strings
  import opened NotificationModels
  import opened SerializerFields

  const NameRequired: string := "El nombre no puede estar vacío"
  const MessageTooShort: string := "El mensaje debe tener al menos 10 caracteres"
  const RecipientRequired: string := "El email de destino es requerido"
  const BodyRequired: string := "El cuerpo del mensaje no puede estar vacío"

  const MinMessageLength: nat := 10

  const ContactFieldNames: set<string> := {"id", "name", "email", "message", "status", "created_at"}
  const NotificationFieldNames: set<string> :=
    {"id", "notification_type", "to", "subject", "body", "status", "source_service", "idempotency_key", "created_at"}
  /** Both serializers declare the same read-only fields. */
  const ReadOnlyFieldNames: set<string> := {"id", "status", "created_at"}

  /** A contact form submission as received. */
  datatype ContactRequest = ContactRequest(name: string, email: string, message: string)

  /** A notify request as received; an absent type means the model default. */
  datatype NotificationRequest = NotificationRequest(
    notificationType: Option<string>, to: string, subject: string, body: string,
    sourceService: string, idempotencyKey: Option<string>)

  /** Refuses blank text (empty or whitespace only); otherwise returns it stripped. */
  function RequireText(value: string, error: string): (r: Result<string, string>)
    ensures r.Success? <==> !AllSpace(value)
    ensures r.Failure? ==> r.error == error
    ensures r.Success? ==> r.value == Strip(value) && r.value != [] && IsStripped(r.value)
  {
    StripEmptyIffAllSpace(value);
    if value == [] || Strip(value) == [] then Failure(error) else Success(Strip(value))
  }

  /** `validate_name`. */
  function ValidateName(value: string): (r: Result<string, string>)
    ensures r.Success? <==> !AllSpace(value)
    ensures r.Failure? ==> r.error == NameRequired
    ensures r.Success? ==> r.value == Strip(value) && r.value != [] && IsStripped(r.value)
  {
    RequireText(value, NameRequired)
  }

  /** `validate_message`: at least ten characters once stripped, returned stripped. */
  function ValidateMessage(value: string): (r: Result<string, string>)
    ensures r.Success? <==> |Strip(value)| >= MinMessageLength
    ensures r.Failure? ==> r.error == MessageTooShort
    ensures r.Success? ==> r.value == Strip(value) && |r.value| >= MinMessageLength && IsStripped(r.value)
  {
    if |Strip(value)| < MinMessageLength then Failure(MessageTooShort) else Success(Strip(value))
  }

  /** `validate_to`. */
  function ValidateTo(value: string): (r: Result<string, string>)
    ensures r.Success? <==> !AllSpace(value)
    ensures r.Failure? ==> r.error == RecipientRequired
    ensures r.Success? ==> r.value == Strip(value) && r.value != [] && IsStripped(r.value)
  {
    RequireText(value, RecipientRequired)
  }

  /** `validate_body`. */
  function ValidateBody(value: string): (r: Result<string, string>)
    ensures r.Success? <==> !AllSpace(value)
    ensures r.Failure? ==> r.error == BodyRequired
    ensures r.Success? ==> r.value == Strip(value) && r.value != [] && IsStripped(r.value)
  {
    RequireText(value, BodyRequired)
  }

  /** A validator's own output is stripped, so stripping it again changes nothing. */
  lemma StrippedOutputIsFixpoint(value: string)
    ensures Strip(Strip(value)) == Strip(value)
    ensures Strip(value) != [] ==> !AllSpace(Strip(value))
  {
    var x := Strip(value);
    StripStripped(x);
    if x != [] {
      assert !IsSpace(x[0]);
    }
  }

  lemma RequireTextIdempotent(value: string, error: string)
    requires RequireText(value, error).Success?
    ensures RequireText(RequireText(value, error).value, error) == RequireText(value, error)
  {
    var x := RequireText(value, error).value;
    StrippedOutputIsFixpoint(value);
    assert !AllSpace(x);
  }

  /** Validating a name, recipient or body a validator already returned gives it back unchanged. */
  lemma RevalidationIsIdentity(value: string)
    ensures ValidateName(value).Success? ==> ValidateName(ValidateName(value).value) == ValidateName(value)
    ensures ValidateTo(value).Success? ==> ValidateTo(ValidateTo(value).value) == ValidateTo(value)
    ensures ValidateBody(value).Success? ==> ValidateBody(ValidateBody(value).value) == ValidateBody(value)
  {
    if !AllSpace(value) {
      RequireTextIdempotent(value, NameRequired);
      RequireTextIdempotent(value, RecipientRequired);
      RequireTextIdempotent(value, BodyRequired);
    }
  }

  /** Validating a message `validate_message` already returned gives it back unchanged. */
  lemma MessageRevalidationIsIdentity(value: string)
    ensures ValidateMessage(value).Success? ==> ValidateMessage(ValidateMessage(value).value) == ValidateMessage(value)
  {
    StrippedOutputIsFixpoint(value);
  }

  /** A five-character message is refused; the sample message of the service's scenario is accepted. */
  lemma MessageLengthExamples()
    ensures ValidateMessage("Hello").Failure?
    ensures ValidateMessage("Hello there, this works").Success?
  {
    assert !IsSpace('H') && !IsSpace('o') && !IsSpace('s');
    StripStripped("Hello");
    StripStripped("Hello there, this works");
  }

  /**
   * A declared validator runs on the value the field's own cleaning
   * returned, so the blank checks of `validate_name`, `validate_to` and
   * `validate_body` never fire: a blank value was already refused as blank.
   * On the cleaned (trimmed, non-blank) value they accept it unchanged, and
   * `validate_message` judges it as it would the raw value.
   */
  lemma DeclaredChecksAfterCleaning(value: string)
    ensures !AllSpace(value) ==> && ValidateName(Strip(value)) == Success(Strip(value))
                                 && ValidateTo(Strip(value)) == Success(Strip(value))
                                 && ValidateBody(Strip(value)) == Success(Strip(value))
    ensures ValidateMessage(Strip(value)) == ValidateMessage(value)
    ensures |Strip(value)| >= MinMessageLength ==> !AllSpace(value)
  {
    StripEmptyIffAllSpace(value);
    StrippedOutputIsFixpoint(value);
  }

  /** The name field: the framework's cleaning, then `validate_name`. */
  function NameField(value: string): (r: Result<string, string>)
    ensures r == if AllSpace(value) then Failure(FieldBlank)
                 else if Nul in value then Failure(NullCharacters)
                 else Success(Strip(value))
  {
    DeclaredChecksAfterCleaning(value);
    match CleanText(value, false)
    case Failure(e) => Failure(e)
    case Success(v) => ValidateName(v)
  }

  /** The message field: the framework's cleaning, then `validate_message`. */
  function MessageField(value: string): (r: Result<string, string>)
    ensures r == if AllSpace(value) then Failure(FieldBlank)
                 else if Nul in value then Failure(NullCharacters)
                 else if |Strip(value)| < MinMessageLength then Failure(MessageTooShort)
                 else Success(Strip(value))
  {
    DeclaredChecksAfterCleaning(value);
    match CleanText(value, false)
    case Failure(e) => Failure(e)
    case Success(v) => ValidateMessage(v)
  }

  /**
   * The errors the contact serializer reports: one per failing field, under
   * the field's name. A blank field is reported as blank, then a field
   * holding U+0000 as such, and only then a short message as short.
   */
  function ContactErrors(request: ContactRequest): (e: FieldErrors)
    ensures e.Keys <= {"name", "email", "message"}
    ensures && ("name" in e <==> AllSpace(request.name) || Nul in request.name)
            && ("email" in e <==> AllSpace(request.email) || Nul in request.email)
            && ("message" in e <==> Nul in request.message || |Strip(request.message)| < MinMessageLength)
    ensures "name" in e ==> e["name"] == if AllSpace(request.name) then FieldBlank else NullCharacters
    ensures "email" in e ==> e["email"] == if AllSpace(request.email) then FieldBlank else NullCharacters
    ensures "message" in e ==> e["message"] == if AllSpace(request.message) then FieldBlank
                                               else if Nul in request.message then NullCharacters
                                               else MessageTooShort
  {
    DeclaredChecksAfterCleaning(request.message);
    Collect("name", NameField(request.name), "email", CleanText(request.email, false),
            "message", MessageField(request.message))
  }

  /**
   * The contact serializer: each field is cleaned by the framework (trimmed,
   * blank and U+0000 refused) and then by its declared validator, if any;
   * every failing field is reported, and on success the trimmed values are
   * kept.
   */
  function ValidateContact(request: ContactRequest): (r: Result<ContactFields, FieldErrors>)
    ensures r.Success? <==> && !AllSpace(request.name) && !AllSpace(request.email)
                            && |Strip(request.message)| >= MinMessageLength
                            && Nul !in request.name && Nul !in request.email && Nul !in request.message
    ensures r.Failure? ==> r.error == ContactErrors(request) && r.error.Keys != {}
    ensures r.Success? ==> r.value == ContactFields(Strip(request.name), Strip(request.email), Strip(request.message))
  {
    var errors := ContactErrors(request);
    if errors.Keys == {} then
      Success(ContactFields(NameField(request.name).value, CleanText(request.email, false).value,
                            MessageField(request.message).value))
    else
      Failure(errors)
  }

  /** The choice field's refusal of an unknown key, which quotes the key. */
  function InvalidChoice(key: string): (message: string)
    ensures |message| == |key| + 25
  {
    "\"" + key + "\" is not a valid choice."
  }

  /** The refusal quotes the key as sent. */
  lemma InvalidChoiceQuotesKey(key: string)
    ensures InvalidChoice(key)[0] == '"' && InvalidChoice(key)[1..|key| + 1] == key
  {
  }

  /**
   * The choice field: an absent type is the model default, an unknown key is
   * refused with a message quoting it. `None` stands for an absent field
   * only; an explicit null, which the framework refuses as null, is not a
   * request this model can express.
   */
  function ValidateType(key: Option<string>): (r: Result<NotificationType, string>)
    ensures key.None? ==> r == Success(DefaultType)
    ensures key.Some? ==> (r.Success? <==> key.value in TypeKeys)
    ensures key.Some? && r.Success? ==> TypeKey(r.value) == key.value
    ensures key.Some? && r.Failure? ==> r.error == InvalidChoice(key.value)
  {
    match key
    case None => Success(DefaultType)
    case Some(k) => if ParseType(k).Some? then Success(ParseType(k).value) else Failure(InvalidChoice(k))
  }

  /**
   * The idempotency key as the key field stores it (`null=True,
   * blank=True`): null stays null, text is trimmed, and blank text becomes
   * the empty string.
   */
  function CleanKey(key: Option<string>): (r: Option<string>)
    ensures r.Some? <==> key.Some?
    ensures key.Some? ==> r.value == Strip(key.value) && (r.value == [] <==> AllSpace(key.value))
  {
    StripEmptyIffAllSpace(if key.Some? then key.value else []);
    match key
    case None => None
    case Some(k) => Some(Strip(k))
  }

  /** The idempotency key field: null or any text, except text holding U+0000; it keeps `CleanKey`. */
  function KeyField(key: Option<string>): (r: Result<Option<string>, string>)
    ensures r.Success? <==> key.None? || Nul !in key.value
    ensures r.Success? ==> r.value == CleanKey(key)
    ensures r.Failure? ==> r.error == NullCharacters
  {
    match key
    case None => Success(None)
    case Some(k) =>
      match CleanText(k, true)
      case Failure(e) => Failure(e)
      case Success(v) => Success(Some(v))
  }

  /** The recipient field: the framework's cleaning, then `validate_to`. */
  function ToField(value: string): (r: Result<string, string>)
    ensures r == if AllSpace(value) then Failure(FieldBlank)
                 else if Nul in value then Failure(NullCharacters)
                 else Success(Strip(value))
  {
    DeclaredChecksAfterCleaning(value);
    match CleanText(value, false)
    case Failure(e) => Failure(e)
    case Success(v) => ValidateTo(v)
  }

  /** The body field: the framework's cleaning, then `validate_body`. */
  function BodyField(value: string): (r: Result<string, string>)
    ensures r == if AllSpace(value) then Failure(FieldBlank)
                 else if Nul in value then Failure(NullCharacters)
                 else Success(Strip(value))
  {
    DeclaredChecksAfterCleaning(value);
    match CleanText(value, false)
    case Failure(e) => Failure(e)
    case Success(v) => ValidateBody(v)
  }

  /**
   * The errors the notification serializer reports: one per failing field,
   * under the field's name. The type fails when unknown; the recipient and
   * the body when blank; every text field, the optional subject, source
   * service and key included, when it holds U+0000.
   */
  function NotificationErrors(request: NotificationRequest): (e: FieldErrors)
    ensures e.Keys <= {"notification_type", "to", "body", "subject", "source_service", "idempotency_key"}
    ensures && ("notification_type" in e <==> ValidateType(request.notificationType).Failure?)
            && ("to" in e <==> AllSpace(request.to) || Nul in request.to)
            && ("body" in e <==> AllSpace(request.body) || Nul in request.body)
            && ("subject" in e <==> Nul in request.subject)
            && ("source_service" in e <==> Nul in request.sourceService)
            && ("idempotency_key" in e <==> request.idempotencyKey.Some? && Nul in request.idempotencyKey.value)
    ensures "notification_type" in e ==> request.notificationType.Some?
                                         && e["notification_type"] == InvalidChoice(request.notificationType.value)
    ensures "to" in e ==> e["to"] == if AllSpace(request.to) then FieldBlank else NullCharacters
    ensures "body" in e ==> e["body"] == if AllSpace(request.body) then FieldBlank else NullCharacters
    ensures "subject" in e ==> e["subject"] == NullCharacters
    ensures "source_service" in e ==> e["source_service"] == NullCharacters
    ensures "idempotency_key" in e ==> e["idempotency_key"] == NullCharacters
  {
    Collect6("notification_type", ValidateType(request.notificationType), "to", ToField(request.to),
             "body", BodyField(request.body), "subject", CleanText(request.subject, true),
             "source_service", CleanText(request.sourceService, true),
             "idempotency_key", KeyField(request.idempotencyKey))
  }

  /**
   * The notification serializer: the type must be a known key (or absent),
   * the recipient and the body must not be blank, and no text may hold
   * U+0000; every text field is trimmed, the optional subject and source
   * service included.
   */
  function ValidateNotification(request: NotificationRequest): (r: Result<NotificationFields, FieldErrors>)
    ensures r.Success? <==> && ValidateType(request.notificationType).Success?
                            && !AllSpace(request.to) && !AllSpace(request.body)
                            && Nul !in request.to && Nul !in request.subject && Nul !in request.body
                            && Nul !in request.sourceService
                            && (request.idempotencyKey.Some? ==> Nul !in request.idempotencyKey.value)
    ensures r.Failure? ==> r.error == NotificationErrors(request) && r.error.Keys != {}
    ensures r.Success? ==> r.value == NotificationFields(
      ValidateType(request.notificationType).value, Strip(request.to), Strip(request.subject),
      Strip(request.body), Strip(request.sourceService), CleanKey(request.idempotencyKey))
  {
    var errors := NotificationErrors(request);
    if errors.Keys == {} then
      Success(NotificationFields(ValidateType(request.notificationType).value, ToField(request.to).value,
                                 CleanText(request.subject, true).value, BodyField(request.body).value,
                                 CleanText(request.sourceService, true).value,
                                 KeyField(request.idempotencyKey).value))
    else
      Failure(errors)
  }

  /** Whatever a client sends, neither serializer lets it set the id, the status or the creation time. */
  lemma ClientCannotSetReadOnlyFields(data: map<string, string>)
    ensures var accepted := SerializerFields.Project(data, ContactFieldNames, ReadOnlyFieldNames);
            "id" !in accepted && "status" !in accepted && "created_at" !in accepted
            && (forall k | k in data && k in {"name", "email", "message"} :: k in accepted && accepted[k] == data[k])
    ensures var accepted := SerializerFields.Project(data, NotificationFieldNames, ReadOnlyFieldNames);
            "id" !in accepted && "status" !in accepted && "created_at" !in accepted
            && (forall k | k in data && k in NotificationFieldNames - ReadOnlyFieldNames :: k in accepted && accepted[k] == data[k])
  {
  }
}
