/**
 * The two create handlers and the two stats actions of the notification
 * service's HTTP interface.
 *
 * A create handler validates the request, persists a pending record, then
 * tries to hand it to the dispatch queue and mark it queued; a failed
 * hand-off is swallowed, so the record stays pending while the response still
 * reports `queued`. A notification whose idempotency key is already stored is
 * answered with the stored record instead. The stats actions count the stored
 * records by status and by type.
 */
module NotificationViews {
  import opened Wrappers
  import opened NotificationModels
  import opened NotificationSerializers
  import opened SerializerFields

  const ContactAccepted: string := "Mensaje recibido y encolado para envío"
  const NotificationAccepted: string := "Notificación recibida y encolada para envío"
  const AlreadyExists: string := "Notification already exists (idempotent)"
  /** The status every create response reports, whatever was stored. */
  const ReportedStatus: string := "queued"
  /** The message of the unique-field validator the serializer derives from the model. */
  const UniqueKeyTaken: string := "Log de Notificación with this idempotency key already exists."

  datatype Response =
    | Created(id: Id, status: string, message: string)
    | Existing(id: Id, status: string, message: string)
    | Invalid(errors: FieldErrors)
    | ServerError

  function HttpStatus(r: Response): nat {
    match r
    case Created(_, _, _) => 201
    case Existing(_, _, _) => 200
    case Invalid(_) => 400
    case ServerError => 500
  }

  /** `if idempotency_key:` — an absent or empty key is falsy. */
  predicate HasKey(key: Option<string>) {
    key.Some? && key.value != ""
  }

  /**
   * `ContactMessageViewSet.create`: an invalid request is answered 400 and
   * changes nothing; a valid one is stored as exactly one new pending
   * message, which is dispatched and marked queued only when the hand-off
   * succeeds, and the answer is 201 `queued` either way.
   */
  method CreateContactMessage(store: ContactStore, request: ContactRequest, newId: Id, now: Time, enqueueOk: bool)
    returns (response: Response)
    requires store.Valid() && newId !in store.messages
    modifies store`messages, store`dispatched
    ensures store.Valid()
    ensures ValidateContact(request).Failure? ==>
              && response == Invalid(ValidateContact(request).error)
              && store.messages == old(store.messages) && store.dispatched == old(store.dispatched)
    ensures ValidateContact(request).Success? ==>
              var created := NewContactMessage(newId, ValidateContact(request).value, now);
              && response == Created(newId, ReportedStatus, ContactAccepted)
              && HttpStatus(response) == 201
              && store.messages == old(store.messages)[newId := if enqueueOk then created.Queue(now) else created]
              && store.dispatched == old(store.dispatched) + (if enqueueOk then [newId] else [])
  {
    var validated := ValidateContact(request);
    if validated.Failure? {
      return Invalid(validated.error);
    }
    response := SaveContact(store, validated.value, newId, now, enqueueOk);
  }

  /**
   * The tail of the contact create handler: the message is saved as a new
   * pending record and handed off; the answer is 201 `queued` either way.
   */
  method SaveContact(store: ContactStore, fields: ContactFields, newId: Id, now: Time, enqueueOk: bool)
    returns (response: Response)
    requires store.Valid() && newId !in store.messages
    modifies store`messages, store`dispatched
    ensures store.Valid()
    ensures var created := NewContactMessage(newId, fields, now);
            && response == Created(newId, ReportedStatus, ContactAccepted)
            && store.messages == old(store.messages)[newId := if enqueueOk then created.Queue(now) else created]
            && store.dispatched == old(store.dispatched) + (if enqueueOk then [newId] else [])
  {
    store.Create(newId, fields, now);
    TryEnqueueContact(store, newId, now, enqueueOk);
    response := Created(newId, ReportedStatus, ContactAccepted);
  }

  /**
   * The `try` block after a contact message is saved: on a successful
   * hand-off the message is dispatched and marked queued; a failing hand-off
   * is swallowed and changes nothing.
   */
  method TryEnqueueContact(store: ContactStore, id: Id, now: Time, enqueueOk: bool)
    requires store.Valid() && id in store.messages
    modifies store`messages, store`dispatched
    ensures store.Valid()
    ensures store.messages == if enqueueOk then old(store.messages)[id := old(store.messages)[id].Queue(now)]
                              else old(store.messages)
    ensures store.dispatched == old(store.dispatched) + (if enqueueOk then [id] else [])
  {
    if enqueueOk {
      store.Dispatch(id);
      store.MarkAsQueued(id, now);
    }
  }

  /**
   * The `try` block after a notification is saved: on a successful hand-off
   * the notification is dispatched and marked queued; a failing hand-off is
   * swallowed and changes nothing.
   */
  method TryEnqueueNotification(store: NotificationStore, id: Id, now: Time, enqueueOk: bool)
    requires store.Valid() && id in store.logs
    modifies store`logs, store`dispatched
    ensures store.Valid() && store.keyIndex == old(store.keyIndex)
    ensures store.logs == if enqueueOk then old(store.logs)[id := old(store.logs)[id].Queue(now)] else old(store.logs)
    ensures store.dispatched == old(store.dispatched) + (if enqueueOk then [id] else [])
  {
    if enqueueOk {
      store.Dispatch(id);
      store.MarkAsQueued(id, now);
    }
  }

  /**
   * The tail of the notification create handler, once no stored record
   * carries the (non-empty) key: the row is saved, unless the unique index
   * refuses its key, and then handed off; the answer is 201 `queued`.
   */
  method SaveNotification(store: NotificationStore, fields: NotificationFields, newId: Id, now: Time, enqueueOk: bool)
    returns (response: Response)
    requires store.Valid() && newId !in store.logs
    modifies store`logs, store`keyIndex, store`dispatched
    ensures store.Valid()
    ensures fields.idempotencyKey.Some? && KeyTaken(old(store.logs), fields.idempotencyKey.value) ==>
              && response == ServerError
              && store.logs == old(store.logs) && store.dispatched == old(store.dispatched)
    ensures fields.idempotencyKey.None? || !KeyTaken(old(store.logs), fields.idempotencyKey.value) ==>
              var created := NewNotificationLog(newId, fields, now);
              && response == Created(newId, ReportedStatus, NotificationAccepted)
              && store.logs == old(store.logs)[newId := if enqueueOk then created.Queue(now) else created]
              && store.dispatched == old(store.dispatched) + (if enqueueOk then [newId] else [])
  {
    var inserted := store.Create(newId, fields, now);
    if !inserted {
      return ServerError;
    }
    TryEnqueueNotification(store, newId, now, enqueueOk);
    response := Created(newId, ReportedStatus, NotificationAccepted);
  }

  /**
   * `NotificationViewSet.create`.
   *  - An invalid request is answered 400 and changes nothing.
   *  - A valid request whose (non-empty) key is stored is answered 200 with
   *    the stored record's id and current status; nothing is inserted or
   *    dispatched.
   *  - Otherwise exactly one pending notification is inserted and one
   *    hand-off attempted, answered 201 `queued` either way, unless the
   *    database's unique index refuses the row: an empty key skips the
   *    duplicate lookup but still collides with a stored empty key, and that
   *    request fails with a server error, changing nothing.
   */
  method CreateNotification(store: NotificationStore, request: NotificationRequest, newId: Id, now: Time,
                            enqueueOk: bool)
    returns (response: Response)
    requires store.Valid() && newId !in store.logs
    modifies store`logs, store`keyIndex, store`dispatched
    ensures store.Valid()
    ensures match ValidateNotification(request)
      case Failure(errors) =>
        && response == Invalid(errors)
        && store.logs == old(store.logs) && store.dispatched == old(store.dispatched)
      case Success(fields) =>
        Accepted(old(store.logs), old(store.dispatched), fields, newId, now, enqueueOk,
                 response, store.logs, store.dispatched)
  {
    var validated := ValidateNotification(request);
    if validated.Failure? {
      return Invalid(validated.error);
    }
    response := AcceptNotification(store, validated.value, newId, now, enqueueOk);
  }

  /**
   * What the create handler does with a valid request, given the stored
   * rows and hand-offs before (`logs`, `dispatched`) and after (`logs'`,
   * `dispatched'`): a stored (non-empty) key is answered 200 with that
   * record; a stored empty key collides in the database and is a server
   * error; otherwise the row is saved and, when the hand-off succeeds,
   * queued and dispatched, and 201 is answered. Only the last case changes
   * anything.
   */
  ghost predicate Accepted(logs: map<Id, NotificationLog>, dispatched: seq<Id>, fields: NotificationFields,
                           newId: Id, now: Time, enqueueOk: bool,
                           response: Response, logs': map<Id, NotificationLog>, dispatched': seq<Id>)
  {
    var key := fields.idempotencyKey;
    if HasKey(key) && KeyTaken(logs, key.value) then
      && response.Existing? && response.id in logs
      && logs[response.id].fields.idempotencyKey == key
      && response == Existing(response.id, StatusKey(logs[response.id].status), AlreadyExists)
      && HttpStatus(response) == 200
      && logs' == logs && dispatched' == dispatched
    else if key.Some? && KeyTaken(logs, key.value) then
      && key == Some("") && response == ServerError
      && logs' == logs && dispatched' == dispatched
    else
      var created := NewNotificationLog(newId, fields, now);
      && response == Created(newId, ReportedStatus, NotificationAccepted)
      && HttpStatus(response) == 201
      && logs' == logs[newId := if enqueueOk then created.Queue(now) else created]
      && dispatched' == dispatched + (if enqueueOk then [newId] else [])
  }

  /** A valid request with a key that is not stored yet creates its row, as `Accepted` says. */
  lemma AcceptedFresh(logs: map<Id, NotificationLog>, dispatched: seq<Id>, fields: NotificationFields,
                      newId: Id, now: Time, enqueueOk: bool,
                      response: Response, logs': map<Id, NotificationLog>, dispatched': seq<Id>)
    requires Accepted(logs, dispatched, fields, newId, now, enqueueOk, response, logs', dispatched')
    requires fields.idempotencyKey.Some? ==> !KeyTaken(logs, fields.idempotencyKey.value)
    ensures response == Created(newId, ReportedStatus, NotificationAccepted)
    ensures logs'.Keys == logs.Keys + {newId} && logs'[newId].fields == fields
    ensures logs'[newId].status == if enqueueOk then Queued else Pending
    ensures dispatched' == dispatched + (if enqueueOk then [newId] else [])
  {
  }

  /**
   * The create handler once the request is valid: a stored (non-empty) key
   * is answered 200 with that record; otherwise the row is saved and handed
   * off, as `SaveNotification` says.
   */
  method AcceptNotification(store: NotificationStore, fields: NotificationFields, newId: Id, now: Time,
                            enqueueOk: bool)
    returns (response: Response)
    requires store.Valid() && newId !in store.logs
    modifies store`logs, store`keyIndex, store`dispatched
    ensures store.Valid()
    ensures Accepted(old(store.logs), old(store.dispatched), fields, newId, now, enqueueOk,
                     response, store.logs, store.dispatched)
  {
    var key := fields.idempotencyKey;
    if HasKey(key) {
      var existing := store.FindByKey(key.value);
      if existing.Some? {
        return Existing(existing.value, StatusKey(store.logs[existing.value].status), AlreadyExists);
      }
    }
    response := SaveNotification(store, fields, newId, now, enqueueOk);
  }

  /**
   * Submitting the same keyed notification twice: the first request inserts
   * it and the second is answered with the first one's id, inserting and
   * dispatching nothing more.
   */
  method SubmitTwice(store: NotificationStore, request: NotificationRequest, firstId: Id, secondId: Id,
                     now: Time, later: Time, enqueueOk: bool, enqueueOkLater: bool)
    returns (first: Response, second: Response)
    requires store.Valid() && firstId !in store.logs && secondId !in store.logs && firstId != secondId
    requires ValidateNotification(request).Success? && HasKey(CleanKey(request.idempotencyKey))
    requires !KeyTaken(store.logs, CleanKey(request.idempotencyKey).value)
    modifies store`logs, store`keyIndex, store`dispatched
    ensures first == Created(firstId, ReportedStatus, NotificationAccepted)
    ensures second.Existing? && second.id == firstId && HttpStatus(second) == 200
    ensures second.status == (if enqueueOk then "queued" else "pending")
    ensures store.logs.Keys == old(store.logs).Keys + {firstId}
    ensures store.dispatched == old(store.dispatched) + (if enqueueOk then [firstId] else [])
    ensures store.Valid()
    ensures firstId in store.logs && store.logs[firstId].fields == ValidateNotification(request).value
  {
    ghost var logs, dispatched := store.logs, store.dispatched;
    ghost var fields := ValidateNotification(request).value;
    assert fields.idempotencyKey == CleanKey(request.idempotencyKey);
    first := CreateNotification(store, request, firstId, now, enqueueOk);
    assert Accepted(logs, dispatched, fields, firstId, now, enqueueOk, first, store.logs, store.dispatched);
    AcceptedFresh(logs, dispatched, fields, firstId, now, enqueueOk, first, store.logs, store.dispatched);
    assert secondId !in store.logs && store.logs[firstId].fields.idempotencyKey == CleanKey(request.idempotencyKey);
    second := Resubmit(store, request, firstId, secondId, later, enqueueOkLater);
  }

  /**
   * A valid request whose key is already stored under `id` is answered 200
   * with that record, whatever its other fields, and changes nothing.
   */
  method Resubmit(store: NotificationStore, request: NotificationRequest, id: Id, newId: Id, now: Time,
                  enqueueOk: bool)
    returns (response: Response)
    requires store.Valid() && newId !in store.logs && id in store.logs
    requires ValidateNotification(request).Success? && HasKey(CleanKey(request.idempotencyKey))
    requires store.logs[id].fields.idempotencyKey == CleanKey(request.idempotencyKey)
    modifies store`logs, store`keyIndex, store`dispatched
    ensures response == Existing(id, StatusKey(old(store.logs)[id].status), AlreadyExists)
    ensures HttpStatus(response) == 200
    ensures store.Valid() && store.logs == old(store.logs) && store.dispatched == old(store.dispatched)
  {
    store.KeysUnique();
    response := CreateNotification(store, request, newId, now, enqueueOk);
  }

  /** The idempotency keys stored so far. */
  function StoredKeys(logs: map<Id, NotificationLog>): (keys: set<string>)
    ensures forall key :: key in keys <==> KeyTaken(logs, key)
  {
    set id | id in logs && logs[id].fields.idempotencyKey.Some? :: logs[id].fields.idempotencyKey.value
  }

  /**
   * The notification serializer as the framework builds it from the model:
   * besides the declared validators, the key's `unique=True` adds a
   * uniqueness validator, which runs on every trimmed key that is not empty
   * (null and blank values skip a field's validators) and refuses one
   * already stored.
   */
  function ValidateNotificationAsWritten(logs: map<Id, NotificationLog>, request: NotificationRequest)
    : (r: Result<NotificationFields, FieldErrors>)
    ensures var key := CleanKey(request.idempotencyKey);
            HasKey(key) && KeyTaken(logs, key.value) ==>
              r.Failure? && "idempotency_key" in r.error && r.error["idempotency_key"] == UniqueKeyTaken
    ensures var key := CleanKey(request.idempotencyKey);
            !(HasKey(key) && KeyTaken(logs, key.value)) ==> r == ValidateNotification(request)
  {
    var base := ValidateNotification(request);
    var key := CleanKey(request.idempotencyKey);
    if HasKey(key) && key.value in StoredKeys(logs) then
      Failure((if base.Failure? then base.error else map[]) + map["idempotency_key" := UniqueKeyTaken])
    else
      base
  }

  /**
   * With that validator in place, a request that gets past validation never
   * finds its key stored, so the 200 replay branch of the handler is never
   * taken: a repeated keyed request is answered 400 instead.
   */
  lemma ReplayUnreachableAsWritten(logs: map<Id, NotificationLog>, request: NotificationRequest)
    ensures var key := CleanKey(request.idempotencyKey);
            ValidateNotificationAsWritten(logs, request).Success? ==> !(HasKey(key) && KeyTaken(logs, key.value))
    ensures var key := CleanKey(request.idempotencyKey);
            HasKey(key) && KeyTaken(logs, key.value) ==> ValidateNotificationAsWritten(logs, request).Failure?
  {
  }

  /** The response body of the contact stats action. */
  datatype ContactStats = ContactStats(total: nat, pending: nat, queued: nat, sent: nat, failed: nat)

  /** The response body of the notification stats action. */
  datatype NotificationStats = NotificationStats(total: nat, byType: map<string, nat>, byStatus: map<string, nat>)

  /** The ids whose status in `statuses` is `s`. */
  function WithStatus(statuses: map<Id, Status>, s: Status): (ids: set<Id>)
    ensures ids <= statuses.Keys
    ensures forall id | id in statuses :: id in ids <==> statuses[id] == s
  {
    set id | id in statuses && statuses[id] == s
  }

  /**
   * The status of each stored contact message. `NotificationStatuses` reads
   * the same field of the other record type; the two differ only in that.
   */
  function ContactStatuses(messages: map<Id, ContactMessage>): (r: map<Id, Status>)
    ensures r.Keys == messages.Keys
    ensures forall id | id in r :: r[id] == messages[id].status
  {
    map id | id in messages :: messages[id].status
  }

  /** The status of each stored notification, as `ContactStatuses` does for contact messages. */
  function NotificationStatuses(logs: map<Id, NotificationLog>): (r: map<Id, Status>)
    ensures r.Keys == logs.Keys
    ensures forall id | id in r :: r[id] == logs[id].status
  {
    map id | id in logs :: logs[id].status
  }

  function NotificationsOfType(logs: map<Id, NotificationLog>, t: NotificationType): (ids: set<Id>)
    ensures ids <= logs.Keys
    ensures forall id | id in logs :: id in ids <==> logs[id].fields.notificationType == t
  {
    set id | id in logs && logs[id].fields.notificationType == t
  }

  /** Every stored record is in exactly one of the four statuses. */
  lemma StatusesPartition(statuses: map<Id, Status>)
    ensures |WithStatus(statuses, Pending)| + |WithStatus(statuses, Queued)|
            + |WithStatus(statuses, Sent)| + |WithStatus(statuses, Failed)| == |statuses|
  {
    var a, b := WithStatus(statuses, Pending), WithStatus(statuses, Queued);
    var c, d := WithStatus(statuses, Sent), WithStatus(statuses, Failed);
    forall id | id in statuses.Keys ensures id in a + b + c + d {
    }
    assert a + b + c + d == statuses.Keys;
    FourWaySplit(statuses.Keys, a, b, c, d);
  }

  /** Every stored notification has exactly one of the three types. */
  lemma NotificationTypesPartition(logs: map<Id, NotificationLog>)
    ensures |NotificationsOfType(logs, Email)| + |NotificationsOfType(logs, Sms)|
            + |NotificationsOfType(logs, Push)| == |logs|
  {
    var a, b, c := NotificationsOfType(logs, Email), NotificationsOfType(logs, Sms), NotificationsOfType(logs, Push);
    forall id | id in logs.Keys ensures id in a + b + c {
    }
    assert a + b + c == logs.Keys;
    ThreeWaySplit(logs.Keys, a, b, c);
  }

  /** `ContactMessageViewSet.stats`: the total and the four status counts, which sum to it. */
  function ContactStatsOf(messages: map<Id, ContactMessage>): (r: ContactStats)
    ensures r.total == |messages|
    ensures r.pending + r.queued + r.sent + r.failed == r.total
  {
    var statuses := ContactStatuses(messages);
    StatusesPartition(statuses);
    ContactStats(|messages|, |WithStatus(statuses, Pending)|, |WithStatus(statuses, Queued)|,
                 |WithStatus(statuses, Sent)|, |WithStatus(statuses, Failed)|)
  }

  /** The count the contact stats report for status `s`. */
  function ContactStatsEntry(stats: ContactStats, s: Status): nat {
    match s
    case Pending => stats.pending
    case Queued => stats.queued
    case Sent => stats.sent
    case Failed => stats.failed
  }

  /** Each reported count is the number of stored messages in that status. */
  lemma ContactStatsCount(messages: map<Id, ContactMessage>, s: Status)
    ensures ContactStatsEntry(ContactStatsOf(messages), s) == |WithStatus(ContactStatuses(messages), s)|
    ensures ContactStatsEntry(ContactStatsOf(messages), s) <= ContactStatsOf(messages).total
  {
  }

  /** `by_type`: one entry per declared type, summing to the number of stored notifications. */
  function CountsByType(logs: map<Id, NotificationLog>): (r: map<string, nat>)
    ensures r.Keys == {"email", "sms", "push"}
    ensures r["email"] + r["sms"] + r["push"] == |logs|
  {
    NotificationTypesPartition(logs);
    map["email" := |NotificationsOfType(logs, Email)|, "sms" := |NotificationsOfType(logs, Sms)|,
        "push" := |NotificationsOfType(logs, Push)|]
  }

  /** `by_status`: one entry per declared status, summing to the number of stored notifications. */
  function CountsByStatus(logs: map<Id, NotificationLog>): (r: map<string, nat>)
    ensures r.Keys == {"pending", "queued", "sent", "failed"}
    ensures r["pending"] + r["queued"] + r["sent"] + r["failed"] == |logs|
  {
    var statuses := NotificationStatuses(logs);
    StatusesPartition(statuses);
    map["pending" := |WithStatus(statuses, Pending)|, "queued" := |WithStatus(statuses, Queued)|,
        "sent" := |WithStatus(statuses, Sent)|, "failed" := |WithStatus(statuses, Failed)|]
  }

  /** `NotificationViewSet.stats`: the total, one count per type and one per status. */
  function NotificationStatsOf(logs: map<Id, NotificationLog>): (r: NotificationStats)
    ensures r.total == |logs|
    ensures r.byType.Keys == {"email", "sms", "push"}
    ensures r.byStatus.Keys == {"pending", "queued", "sent", "failed"}
    ensures r.byType["email"] + r.byType["sms"] + r.byType["push"] == r.total
    ensures r.byStatus["pending"] + r.byStatus["queued"] + r.byStatus["sent"] + r.byStatus["failed"] == r.total
  {
    NotificationStats(|logs|, CountsByType(logs), CountsByStatus(logs))
  }

  /** Each entry counts the stored notifications of that type or in that status. */
  lemma NotificationStatsCount(logs: map<Id, NotificationLog>, t: NotificationType, s: Status)
    ensures NotificationStatsOf(logs).byType[TypeKey(t)] == |NotificationsOfType(logs, t)|
    ensures NotificationStatsOf(logs).byStatus[StatusKey(s)] == |WithStatus(NotificationStatuses(logs), s)|
  {
  }

  lemma ThreeWaySplit(all: set<Id>, a: set<Id>, b: set<Id>, c: set<Id>)
    requires a + b + c == all
    requires a !! b && a !! c && b !! c
    ensures |a| + |b| + |c| == |all|
  {
    assert a * b == {};
    assert (a + b) * c == {};
  }

  lemma FourWaySplit(all: set<Id>, a: set<Id>, b: set<Id>, c: set<Id>, d: set<Id>)
    requires a + b + c + d == all
    requires a !! b && a !! c && a !! d && b !! c && b !! d && c !! d
    ensures |a| + |b| + |c| + |d| == |all|
  {
    ThreeWaySplit(a + b + c, a, b, c);
    assert (a + b + c) * d == {};
  }
}
