# Notification dispatch engine of the email service, with the blog and auth record helpers

This project is a Dafny model of the notification dispatch engine of a small microservice lab.

- **Intake.** The email service accepts contact-form messages and internal notify requests. It validates each request, persists a pending record, and hands the record to a task queue. A notification whose idempotency key is already stored is answered with the stored record instead.
- **Workers.** A worker task loads the record, marks it queued, asks the mail transport to deliver it, and marks it sent or failed. A failed run is re-run five seconds later while its retry ceiling allows it.
- **Stats.** The stats actions count the stored records by status and by type.

Around that engine sit a few small helpers from the other services:

- the blog Post's slug and excerpt derivation and its view counter;
- the auth service's user manager (`create_user`, `create_superuser`), the user name accessors, and the registration serializer's password checks.

Modules follow the source files:

| module | file | models |
|---|---|---|
| `NotificationModels` | `notification_models.dfy` | the two records, their choice sets and transitions, and the record stores (`mark_as_*` as store methods that replace one record) |
| `NotificationTasks` | `notification_tasks.dfy` | one call of each task; the attempt schedule; the queue's re-runs as a loop over task calls |
| `NotificationViews` | `notification_views.dfy` | the create handlers as methods over the stores; the stats actions as functions |
| `NotificationSerializers`, `SerializerFields` | `notification_serializers.dfy`, `serializer_fields.dfy` | the framework's text-field cleaning, the declared field validators and the field lists |
| `Mailer` | `mailer.dfy` | `send_email`, `send_template_email`, `format_contact_email` |
| `Posts` | `posts.dfy` | the `Post` record as a class |
| `Users`, `UserSerializers` | `users.dfy`, `user_serializers.dfy` | the user manager, the name accessors, the serializers |
| `Strings`, `Wrappers` | `strings.dfy`, `wrappers.dfy` | Python's `str.strip` (CPython's whitespace set), prefix/suffix/occurrence tests, `str.replace`; Option and Result |

Several things outside the code become parameters:

- A request's success or failure to reach the queue is the `enqueueOk` flag.
- The transport's verdict on each run is a schedule `succeeds: nat -> bool`.
- The clock is a `Time` value; run k happens at `start + k * 5`.
- `DEFAULT_FROM_EMAIL` is a `defaultFrom` string.
- `slugify` and `normalize_email` are functions passed in.
- The template renderer is `string -> Option<string>`, with None when rendering raises.

## Model

| member | source | states |
|---|---|---|
| NotificationModels.ParseStatus | email-service/notifications/models.py:13-18 | exactly the four declared keys name a status, and the parsed status maps back to its key |
| NotificationModels.ParseType | email-service/notifications/models.py:71-75 | exactly the three declared keys name a notification type, and the parsed type maps back to its key |
| NotificationModels.KeysRoundTrip | email-service/notifications/models.py:71-82 | every status and every type has a declared key that parses back to it |
| NotificationModels.NewContactMessage | email-service/notifications/models.py:20-33 | a new contact message is pending, with retry count 0, no error and no processing time, and is consistent |
| NotificationModels.NewNotificationLog | email-service/notifications/models.py:84-106 | a new notification is pending, with retry count 0, no error and no sending time, and is consistent |
| NotificationModels.ContactTransitions | email-service/notifications/models.py:47-64 | queue, send and fail keep a consistent message consistent, keep its identity and payload, and never lower its retry count |
| NotificationModels.NotificationTransitions | email-service/notifications/models.py:121-137 | the same for a notification |
| NotificationModels.ContactStore.Create | email-service/notifications/views.py:48 | saving adds exactly the new pending message under its id |
| NotificationModels.ContactStore.Dispatch | email-service/notifications/views.py:52 | the id is appended to the dispatch queue and nothing else changes |
| NotificationModels.ContactStore.MarkAsQueued | email-service/notifications/models.py:47-50 | only that message changes: status queued; retry count, error and processing time are kept |
| NotificationModels.ContactStore.MarkAsSent | email-service/notifications/models.py:52-56 | status sent and processing time now; retry count and error are kept |
| NotificationModels.ContactStore.MarkAsFailed | email-service/notifications/models.py:58-64 | status failed, the error is stored, retry count goes up by exactly 1, processing time now |
| NotificationModels.NotificationStore.KeysUnique | email-service/notifications/models.py:97-98 | the unique index keeps any two stored notifications from sharing a present idempotency key |
| NotificationModels.NotificationStore.Create | email-service/notifications/views.py:132 | the row is inserted if and only if its key is absent or not yet stored; otherwise the logs and the index are unchanged |
| NotificationModels.NotificationStore.FindByKey | email-service/notifications/views.py:119 | finds a record if and only if one carries the key, and it is that record |
| NotificationModels.NotificationStore.Dispatch | email-service/notifications/views.py:136 | the id is appended to the dispatch queue and nothing else changes |
| NotificationModels.NotificationStore.MarkAsQueued | email-service/notifications/models.py:121-124 | only that notification changes: status queued; retry count, error and sending time are kept |
| NotificationModels.NotificationStore.MarkAsSent | email-service/notifications/models.py:126-130 | status sent and sending time now; retry count and error are kept |
| NotificationModels.NotificationStore.MarkAsFailed | email-service/notifications/models.py:132-137 | status failed, the error is stored, retry count plus exactly 1; the sending time is left alone |
| NotificationSerializers.RequireText | email-service/notifications/serializers.py:51-53 | blank input (empty or whitespace only) is refused with the given error; otherwise the stripped, non-empty text is returned |
| NotificationSerializers.ValidateName | email-service/notifications/serializers.py:17-21 | refuses exactly blank names, with its message; returns the name stripped |
| NotificationSerializers.ValidateMessage | email-service/notifications/serializers.py:23-27 | accepts exactly messages of at least 10 characters after stripping, and returns them stripped |
| NotificationSerializers.ValidateTo | email-service/notifications/serializers.py:49-53 | refuses exactly blank recipients; returns the recipient stripped |
| NotificationSerializers.ValidateBody | email-service/notifications/serializers.py:55-59 | refuses exactly blank bodies; returns the body stripped |
| NotificationSerializers.RevalidationIsIdentity | email-service/notifications/serializers.py:19-59 | validating a name, recipient or body that a validator returned gives the same result |
| NotificationSerializers.MessageRevalidationIsIdentity | email-service/notifications/serializers.py:25-27 | validating a message that `validate_message` returned gives the same result |
| NotificationSerializers.MessageLengthExamples | email-service/notifications/serializers.py:25-26 | "Hello" (5 characters) is refused; "Hello there, this works" is accepted |
| NotificationSerializers.DeclaredChecksAfterCleaning | email-service/notifications/serializers.py:17-59 | on a value the field's own cleaning accepted, `validate_name`, `validate_to` and `validate_body` return it unchanged, so their blank errors are never reported; `validate_message` judges it as it would the raw value |
| NotificationSerializers.NameField | email-service/notifications/serializers.py:17-21 | a blank name is refused as blank, one holding U+0000 with "Null characters are not allowed."; any other is kept trimmed |
| NotificationSerializers.MessageField | email-service/notifications/serializers.py:23-27 | a blank message is refused as blank, then one holding U+0000 with "Null characters are not allowed.", then one shorter than 10 characters after trimming as too short; any other is kept trimmed |
| NotificationSerializers.ContactErrors | email-service/notifications/serializers.py:8-27 | name and email are reported exactly when blank or holding U+0000, the message exactly when holding U+0000 or under 10 characters after trimming; each with the message of its first refusal (blank, then "Null characters are not allowed.", then too short) |
| NotificationSerializers.ValidateContact | email-service/notifications/serializers.py:8-27 | valid if and only if name and email are not blank, no field holds U+0000, and the message has at least 10 characters after trimming; otherwise exactly the failing fields are reported; the trimmed values are kept |
| NotificationSerializers.NotificationErrors | email-service/notifications/serializers.py:39-59 | notification_type is reported exactly when the type is unknown, with `"<input>" is not a valid choice.`; to and body exactly when blank ("This field may not be blank.") or holding U+0000 ("Null characters are not allowed."); subject, source_service and idempotency_key exactly when holding U+0000, with "Null characters are not allowed."; no other field is reported |
| NotificationSerializers.InvalidChoiceQuotesKey | email-service/notifications/models.py:85 | the unknown-choice message opens with the submitted input between double quotes |
| NotificationSerializers.ValidateType | email-service/notifications/models.py:85 | an absent type is email; a given type must be one of the three declared keys, and any other is refused with `"<input>" is not a valid choice.` |
| NotificationSerializers.ToField | email-service/notifications/serializers.py:49-53 | a blank recipient is refused as blank, one holding U+0000 with "Null characters are not allowed."; any other is kept trimmed |
| NotificationSerializers.BodyField | email-service/notifications/serializers.py:55-59 | a blank body is refused as blank, one holding U+0000 with "Null characters are not allowed."; any other is kept trimmed |
| NotificationSerializers.CleanKey | email-service/notifications/models.py:97-98 | a null key stays null; a given key is trimmed, and is empty exactly when it was blank |
| NotificationSerializers.KeyField | email-service/notifications/models.py:97-98 | a null key is accepted, as is any given key without U+0000, and the accepted key is `CleanKey`'s; a key holding U+0000 is refused with "Null characters are not allowed." |
| NotificationSerializers.ValidateNotification | email-service/notifications/serializers.py:39-59 | valid if and only if the type is known or absent, recipient and body are not blank, and no text field (recipient, subject, body, source service, a given key) holds U+0000; otherwise exactly the failing fields are reported; recipient, subject, body, source service and key are kept trimmed |
| NotificationSerializers.ClientCannotSetReadOnlyFields | email-service/notifications/serializers.py:12-47 | whatever a client sends, id, status and created_at are never accepted, and every writable field it sends is accepted with the value sent |
| SerializerFields.Project | email-service/notifications/serializers.py:14-15 | keeps exactly the entries under declared fields that are not excluded, with their values |
| SerializerFields.CleanText | email-service/notifications/models.py:21-23 | a blank value is refused as blank unless the field allows blanks; otherwise a value holding U+0000 is refused with "Null characters are not allowed."; an accepted value is kept trimmed, free of U+0000, and empty exactly when it was blank |
| NotificationTasks.RetryOrGiveUp | email-service/notifications/tasks.py:63-72 | another run is scheduled, RetryDelay later, if and only if fewer than the ceiling of re-runs have happened; otherwise the error is re-raised |
| NotificationTasks.AttemptCount | email-service/notifications/tasks.py:15 | a task runs 1 to 1 + ceiling times; every run but the last fails; the last one succeeds unless the ceiling was reached |
| NotificationTasks.AttemptCountIs | email-service/notifications/tasks.py:15 | the run count is exactly one past the first success, or 1 + ceiling when no run succeeds |
| NotificationTasks.RunFailures | email-service/notifications/tasks.py:52-72 | the failed runs of a task are all its runs but a final success |
| NotificationTasks.RunsStopAtAttemptCount | email-service/notifications/tasks.py:63-72 | every run before the last asks for a retry; the last reports `sent` or re-raises |
| NotificationTasks.ContactNotice | email-service/notifications/tasks.py:30-50 | the contact notice goes to DEFAULT_FROM_EMAIL, from the sender's address, with subject "Nuevo mensaje de contacto de " + name |
| NotificationTasks.ContactAttemptsFacts | email-service/notifications/tasks.py:23-72 | after n runs the retry count has grown by exactly the failed runs, the message stays consistent, and its status is the last run's verdict |
| NotificationTasks.ContactAlwaysFailing | email-service/notifications/tasks.py:63-72 | delivery that always fails gives 1 + ceiling runs; the message ends failed with 1 + ceiling more failures |
| NotificationTasks.ContactEventualSuccess | email-service/notifications/tasks.py:52-72 | delivery that fails k times then succeeds, within the ceiling, ends sent with k more failures |
| NotificationTasks.ContactCeilingExamples | email-service/notifications/tasks.py:15 | with ceiling 3, always-failing ends failed with retry count 4; fail-twice-then-succeed ends sent with retry count 2 |
| NotificationTasks.SendContactEmailTask | email-service/notifications/tasks.py:16-72 | a missing id gives the not-found error result and changes nothing; otherwise the message is queued, then sent with result `sent`, or failed with the retry decision |
| NotificationTasks.RunContactTask | email-service/notifications/tasks.py:15-72 | repeated task calls leave the message in exactly the state that the schedule's function gives after AttemptCount runs, and end with `sent` or the re-raised error |
| NotificationTasks.NotificationEmail | email-service/notifications/tasks.py:90-95 | an email notification goes to its recipient with its subject and body, from the default sender |
| NotificationTasks.NotificationAttemptsFacts | email-service/notifications/tasks.py:83-121 | after k runs the retry count has grown by exactly the failed deliveries, the log stays consistent, and its status is the last run's verdict |
| NotificationTasks.NonEmailSentAtOnce | email-service/notifications/tasks.py:96-104 | an SMS or push notification runs once and is sent at once; its retry count and error are untouched |
| NotificationTasks.NotificationAlwaysFailing | email-service/notifications/tasks.py:112-121 | email delivery that always fails gives 1 + ceiling runs, and the log ends failed with 1 + ceiling more failures |
| NotificationTasks.NotificationEventualSuccess | email-service/notifications/tasks.py:101-121 | delivery that fails k times then succeeds ends sent, with k more failures for email and none otherwise |
| NotificationTasks.SendNotificationTask | email-service/notifications/tasks.py:76-121 | a missing id gives the not-found error; otherwise queued, the email handed to the transport only for type email, then sent or failed with the retry decision |
| NotificationTasks.RunNotificationTask | email-service/notifications/tasks.py:75-121 | repeated task calls leave the log in exactly the state that the schedule's function gives after AttemptCount runs |
| NotificationViews.CreateContactMessage | email-service/notifications/views.py:40-66 | invalid requests get 400 and change nothing; a valid one adds exactly one message, pending or, when the hand-off succeeds, dispatched and queued; the answer is 201 `queued` either way |
| NotificationViews.SaveContact | email-service/notifications/views.py:47-66 | a validated message adds exactly one row, pending or, when the hand-off succeeds, dispatched and queued; the answer is 201 `queued` either way |
| NotificationViews.TryEnqueueContact | email-service/notifications/views.py:50-57 | a successful hand-off dispatches and queues the message; a failing one changes nothing |
| NotificationViews.TryEnqueueNotification | email-service/notifications/views.py:135-140 | a successful hand-off dispatches and queues the notification; a failing one changes nothing |
| NotificationViews.SaveNotification | email-service/notifications/views.py:131-149 | a row whose key the index refuses gives a server error and changes nothing; otherwise exactly one insert, one hand-off attempt, and 201 `queued` |
| NotificationViews.CreateNotification | email-service/notifications/views.py:107-149 | 400 with nothing changed for an invalid request; 200 with the stored id and current status when a key that is not empty once trimmed is stored; otherwise one insert and 201 `queued`, or a server error when an empty key collides |
| NotificationViews.AcceptNotification | email-service/notifications/views.py:116-149 | for a valid request: a stored non-empty key is answered 200 with that record and nothing changes; an empty key that collides is a server error; otherwise one insert and 201 `queued` |
| NotificationViews.SubmitTwice | email-service/notifications/views.py:117-129 | a second identical keyed request is answered 200 with the first id and its stored status; only one record is ever added or dispatched, it holds the validated fields, and the store stays consistent |
| NotificationViews.Resubmit | email-service/notifications/views.py:117-129 | a valid request whose key is stored under some record is answered 200 with that record's id and status, whatever its other fields, and changes nothing |
| NotificationViews.ValidateNotificationAsWritten | email-service/notifications/models.py:97-98 | with the uniqueness validator derived from `unique=True`, a stored key that is not empty once trimmed is refused with a field error; other requests validate as before |
| NotificationViews.ReplayUnreachableAsWritten | email-service/notifications/views.py:113-129 | a request that gets past that validation never has a stored key, so the 200 replay branch is never reached |
| NotificationViews.StatusesPartition | email-service/notifications/views.py:74-78 | the four status counts of any set of records, contact messages or notifications, add up to the total |
| NotificationViews.NotificationTypesPartition | email-service/notifications/views.py:158-161 | the three type counts of notifications add up to the total |
| NotificationViews.ContactStatsOf | email-service/notifications/views.py:68-86 | the total is the number of messages, and the four status counts sum to it |
| NotificationViews.ContactStatsCount | email-service/notifications/views.py:74-85 | each reported count is the number of messages in that status, and at most the total |
| NotificationViews.CountsByType | email-service/notifications/views.py:158-161 | one entry per declared type, summing to the number of notifications |
| NotificationViews.CountsByStatus | email-service/notifications/views.py:163-166 | one entry per declared status, summing to the number of notifications |
| NotificationViews.NotificationStatsOf | email-service/notifications/views.py:151-172 | the total, and one family per type and per status, each summing to the total |
| NotificationViews.NotificationStatsCount | email-service/notifications/views.py:157-171 | each entry is the number of notifications of that type or in that status |
| Mailer.Sender | email-service/utils/mailer.py:26 | a missing or empty sender falls back to DEFAULT_FROM_EMAIL |
| Mailer.ComposeAsWritten | email-service/utils/mailer.py:28-46 | with an HTML body, `body` is sent as the HTML part and the HTML body is dropped; without one, `body` is the plain text |
| Mailer.HtmlBodyIsDropped | email-service/utils/mailer.py:28-37 | a concrete call whose HTML body never reaches the message |
| Mailer.Compose | email-service/utils/mailer.py:28-46 | `body` is always the plain text, and a non-empty HTML body is the HTML part |
| Mailer.ComposeAgreesWithoutHtml | email-service/utils/mailer.py:38-46 | without an HTML body, the corrected and the as-written messages are equal |
| Mailer.SendEmail | email-service/utils/mailer.py:11-53 | true if and only if the transport accepts the composed message; never raises |
| Mailer.SendEmailAsWrittenWithoutHtml | email-service/utils/mailer.py:38-46 | without an HTML body, the transport gets the same message as the source sends |
| Mailer.RewriteKeepsTextSuffix | email-service/utils/mailer.py:74-77 | rewriting every `.html` of a name ending in `.html` gives a name ending in `.txt` |
| Mailer.TextTemplateName | email-service/utils/mailer.py:74-77 | a text template exists if and only if the name ends in `.html`; it is the name with every `.html` replaced, and ends in `.txt` |
| Mailer.TextTemplateNameOfPlainName | email-service/utils/mailer.py:74-77 | `stem.html` gives `stem.txt` for a dot-free stem |
| Mailer.TextTemplateNameRewritesEveryOccurrence | email-service/utils/mailer.py:75 | `stem.html.html` gives `stem.txt.txt`: the rewrite is not confined to the suffix |
| Mailer.TemplateMessage | email-service/utils/mailer.py:70-85 | a message exists if and only if both renderings succeed; the text is the `.txt` rendering or, without one, the HTML rendering |
| Mailer.SendTemplateEmail | email-service/utils/mailer.py:56-89 | true if and only if both renderings succeed and the transport accepts |
| Mailer.TemplateMessageAsWritten | email-service/utils/mailer.py:79-85 | as written, a non-empty HTML rendering is replaced by the text rendering in the HTML part and there is no text part; the HTML rendering reaches the transport only when both renderings are equal |
| Mailer.FormatContactEmail | email-service/utils/mailer.py:92-126 | the subject is "[Contacto] Mensaje de " + name; the body contains the name and the message, contains the email twice, and ends with the reply line naming the email |
| Posts.PostStatusKey | blog-service/posts/models.py:10-13 | every status is stored as one of "draft" and "published" |
| Posts.DerivedExcerpt | blog-service/posts/models.py:43 | a body of at most 200 characters is its own excerpt; a longer one gives its first 200 characters plus "...", 203 in all |
| Posts.SlugAfterSave | blog-service/posts/models.py:38-39 | a non-empty slug is kept; an empty one becomes slugify(title) |
| Posts.ExcerptAfterSave | blog-service/posts/models.py:42-43 | a non-empty excerpt is kept; an empty one becomes the derived excerpt |
| Posts.SaveIdempotent | blog-service/posts/models.py:37-45 | saving twice gives the same slug and excerpt as saving once |
| Posts.DerivedExcerptIsBodyPrefix | blog-service/posts/models.py:43 | a derived excerpt is at most 203 characters and agrees with the body on its kept prefix |
| Posts.Post.constructor | blog-service/posts/models.py:21-22 | a new post is a draft with no views |
| Posts.Post.Save | blog-service/posts/models.py:37-45 | fills only an empty slug and an empty excerpt, and leaves the post derived |
| Posts.Post.IncrementViews | blog-service/posts/models.py:47-50 | views go up by exactly 1; on a post that is already derived, nothing else changes |
| Users.CreateUser | auth-service/users/models.py:8-17 | refused with "El email es obligatorio" if and only if the email is empty; otherwise the user carries the normalised email, the password and the extra fields |
| Users.SetDefault | auth-service/users/models.py:21-23 | a key is added with the value only when it is absent; existing entries are kept |
| Users.SuperuserFields | auth-service/users/models.py:21-23 | the three flags are present; given values are kept, absent flags become True |
| Users.CreateSuperuser | auth-service/users/models.py:19-30 | succeeds if and only if the staff and superuser flags are absent or True and the email is non-empty; the staff error comes first, then the superuser error, then `create_user`'s empty-email error |
| Users.SuperuserDefaults | auth-service/users/models.py:21-23 | with no flags given, the superuser is staff, superuser and active |
| Users.TruthyFlagsAreRefused | auth-service/users/models.py:25-28 | `1` and `"True"` are refused; only the boolean True passes |
| Users.User.FullName | auth-service/users/models.py:57-60 | the stripped "first last", or the email when that is empty; non-empty whenever the email is |
| Users.User.ShortName | auth-service/users/models.py:62-64 | the first name, or the email when it is empty |
| Users.NamelessUserIsKnownByEmail | auth-service/users/models.py:57-64 | without names, both accessors give the email |
| Users.FullNameOfStrippedNames | auth-service/users/models.py:59 | two stripped, non-empty names give exactly "first last" |
| Users.FullNameOfFirstNameOnly | auth-service/users/models.py:59-60 | a first name alone gives that name, without the separating space |
| UserSerializers.ValidatePassword | auth-service/users/serializers.py:19-20 | accepted if and only if at least 8 characters remain after trimming and none is U+0000; the first refusal is reported: blank, then too short, then "Null characters are not allowed." |
| UserSerializers.PasswordField | auth-service/users/serializers.py:19-20 | a password field is refused if and only if it is missing ("This field is required.") or `ValidatePassword` refuses it, with that message; an accepted one is kept trimmed |
| UserSerializers.EmailField | auth-service/users/models.py:36 | the email is refused exactly when missing (required), blank (blank), already registered once trimmed (the unique message) or holding U+0000 ("Null characters are not allowed."), the first of these being reported; an accepted one is kept trimmed and is not empty |
| UserSerializers.OptionalNameField | auth-service/users/models.py:37-38 | a name is refused exactly when given and holding U+0000, with "Null characters are not allowed."; absent or blank is accepted, and a given one is kept trimmed |
| UserSerializers.FieldLevelErrors | auth-service/users/serializers.py:19-24 | each of email, password, password2, first_name and last_name is reported exactly when its own field refuses it, with that field's message, and no other key is; so there are no field errors if and only if the email is present, not blank and not registered, both passwords are present and long enough, and no submitted field holds U+0000 |
| UserSerializers.ValidateRegister | auth-service/users/serializers.py:26-30 | field errors are returned as they are; then differing passwords are refused with the error keyed "password"; matching ones pass with every submitted declared field trimmed and free of U+0000, and a non-empty unregistered email |
| UserSerializers.RegisterCreate | auth-service/users/serializers.py:32-36 | password2 is dropped; the email and password go to `create_user` and the names become extra fields |
| UserSerializers.RegistrationCreatesUser | auth-service/users/serializers.py:26-36 | a registration that validates always creates a user, with the trimmed email normalised and the trimmed password: `create_user`'s empty-email error cannot fire |
| UserSerializers.TrimmedPasswordsMatch | auth-service/users/serializers.py:26-30 | with a usable email and no U+0000 in the submitted fields, passwords that differ only in surrounding whitespace are accepted as matching |
| UserSerializers.SerializerFieldSets | auth-service/users/serializers.py:7-24 | registration never echoes a password; the user serializer shows only its five fields and never accepts id or date_joined |

## Left out

- The Celery machinery is not modelled: the broker, the worker pool, `.delay`, and `self.retry` as an exception. Queue re-runs are a loop of task calls (`RunContactTask`, `RunNotificationTask`), and the delay is the constant `RetryDelay` added to an abstract clock.
- A failed hand-off to the queue is the `enqueueOk` flag: the exception it stands for is not modelled beyond that.
- Concurrency is not modelled. Requests run one after another against the stores. The check-then-insert of the idempotency path is not atomic in the service, and the unique index on the key is the real guard; the store models that index (`keyIndex`).
- Persistence is not modelled: the database itself, `auto_now` timestamps, and `timezone.now()`. Time is a parameter, and `created_at`/`updated_at` are plain fields.
- The SMTP transport and template rendering are foreign library calls. They are parameters: a transport verdict per run, and a renderer that may fail.
- `slugify`, `normalize_email` and `set_password` hashing are library behaviour, taken as given.
- EmailField address-syntax validation is library behaviour. The email, recipient and sender addresses are accepted as given.
- The framework's `max_length` limits are not modelled. The contact and notify requests are datatypes with every field present, so a missing required field (reported as "This field is required.") is not expressible; the registration data, a map, does express it.
- NotificationSerializers.ValidateType: `None` is an absent `notification_type`, which takes the model default. An explicit null, which the framework refuses with "This field may not be null.", is not expressible.
- UserSerializers.EmailField: the registered-address check compares the trimmed address exactly, as the default lookup does; a database collation that ignores case would refuse more.
- UserSerializers.EmailField: a field error is one message, the first refusal. The framework runs a field's validators together and lists every message, so a registered address holding U+0000 gets both the unique message and the null-character message there.
- UserSerializers.ValidatePassword: reports only the first refusal; a password shorter than 8 characters that holds U+0000 gets both the too-short and the null-character message from the framework.
- NotificationViews.ValidateNotificationAsWritten: reports only the first refusal of the key; a stored key holding U+0000 (which this intake never stores) gets both the unique message and the null-character message from the framework.
- The framework's validator for surrogate code points is not modelled: a Dafny `char` is a Unicode scalar value, so no text here can hold one.
- Mailer.SendEmail: hands the transport the corrected message (`Compose`); with an HTML body the source sends `body` as HTML instead (see Findings; `SendEmailAsWrittenWithoutHtml` covers the calls without one).
- Mailer.TemplateMessage: builds the corrected message, with the HTML rendering as the HTML part; the source sends the text rendering as HTML and drops the HTML rendering (see Findings and `TemplateMessageAsWritten`).
- Mailer.SendTemplateEmail: its verdict is the transport's verdict on the corrected message, not on the one the source sends.
- The list and retrieve actions of both view sets and the list serializers are framework defaults with no logic of their own.
- Health checks, connection scripts, request logging, the `logger` calls of the tasks, the views and the mailer, the seed command, admin registrations and URL routing are I/O or wiring.
- The Post fields `author`, `category` and `published_at` are not modelled. `save` writes nothing to them.
- The queue's own retry counter (`request.retries`) is the run number passed to each task call. It is not the record's `retry_count`, which also counts failures from any earlier task on the record; `ContactAttemptsFacts` relates the two.
- A contact message that fails and is run again is marked queued with its processing time still set. So "processing time set only on a terminal status" does not hold in the code. `Consistent` states the one-way form instead: sent and failed messages have a processing time.
- The retry ceiling follows the code. `max_retries=3` permits three re-runs after the first run, and every failed run adds one to `retry_count`. So a delivery that always fails ends with `retry_count` 4, not 3 (`ContactCeilingExamples`).
- NotificationViews.CreateNotification: an empty idempotency key skips the duplicate lookup (`if idempotency_key:`). The database's unique index still refuses a second empty key, which the model answers with a server error.
- NotificationViews.CreateNotification: models the evidently intended handler, without the uniqueness validator that the framework derives from `unique=True`; see Findings.

## Findings

| source | as written | input that shows it | evidently intended | confidence | as-written member | corrected member |
|---|---|---|---|---|---|---|
| email-service/utils/mailer.py:28-37 | with `html_body` given, `body` is sent with its content type set to HTML and `html_body` is never used, so `send_template_email` sends the `.txt` rendering labelled as HTML | `send_email(["ana@x.com"], "Hola", "plain text", html_body="<p>rich</p>")` sends "plain text" as HTML and never sends "<p>rich</p>" | `html_body` as the HTML part, with `body` as the plain-text alternative | high; not executed | Mailer.HtmlBodyIsDropped | Mailer.Compose |
| email-service/notifications/views.py:117-129 | the serializer derived from the model gets a uniqueness validator for `idempotency_key` (`unique=True`, models.py:97), which refuses a stored non-empty key with 400 before the handler's duplicate lookup runs | a second POST with `idempotency_key` "k1" after a first one with "k1" is answered 400, not 200 | the repeated request is answered 200 with the stored record's id and status | medium; not executed | NotificationViews.ReplayUnreachableAsWritten | NotificationViews.SubmitTwice |
