/**
 * The two records of the notification service, ContactMessage and
 * NotificationLog, their status and type choices, their field defaults, and
 * the record store that the `mark_as_*` methods update in place.
 *
 * A record is a value; a store is an object holding a map from id to record.
 * The `mark_as_*` methods of the source become methods of the store that
 * replace one record.
 */
module NotificationModels {
  import opened Wrappers

  /** Opaque record identifier (a random UUID in the service). */
  type Id = nat

  /** A reading of an abstract, monotone clock, in seconds. */
  type Time = nat

  datatype Status = Pending | Queued | Sent | Failed

  datatype NotificationType = Email | Sms | Push

  /** The stored choice keys, in the order the choice lists declare them. */
  const StatusKeys: seq<string> := ["pending", "queued", "sent", "failed"]
  const TypeKeys: seq<string> := ["email", "sms", "push"]

  function StatusKey(s: Status): string {
    match s
    case Pending => "pending"
    case Queued => "queued"
    case Sent => "sent"
    case Failed => "failed"
  }

  function TypeKey(t: NotificationType): string {
    match t
    case Email => "email"
    case Sms => "sms"
    case Push => "push"
  }

  /** Only the four declared keys name a status, and each names exactly one. */
  function ParseStatus(key: string): (r: Option<Status>)
    ensures r.Some? <==> key in StatusKeys
    ensures r.Some? ==> StatusKey(r.value) == key
  {
    if key == "pending" then Some(Pending)
    else if key == "queued" then Some(Queued)
    else if key == "sent" then Some(Sent)
    else if key == "failed" then Some(Failed)
    else None
  }

  /** Only the three declared keys name a notification type. */
  function ParseType(key: string): (r: Option<NotificationType>)
    ensures r.Some? <==> key in TypeKeys
    ensures r.Some? ==> TypeKey(r.value) == key
  {
    if key == "email" then Some(Email)
    else if key == "sms" then Some(Sms)
    else if key == "push" then Some(Push)
    else None
  }

  lemma KeysRoundTrip(s: Status, t: NotificationType)
    ensures ParseStatus(StatusKey(s)) == Some(s) && StatusKey(s) in StatusKeys
    ensures ParseType(TypeKey(t)) == Some(t) && TypeKey(t) in TypeKeys
  {
  }

  const DefaultType: NotificationType := Email

  /** The client-writable fields of a contact message, as validated. */
  datatype ContactFields = ContactFields(name: string, email: string, message: string)

  /** The client-writable fields of a notification, as validated. */
  datatype NotificationFields = NotificationFields(
    notificationType: NotificationType, to: string, subject: string, body: string,
    sourceService: string, idempotencyKey: Option<string>)

  datatype ContactMessage = ContactMessage(
    id: Id, fields: ContactFields, status: Status,
    createdAt: Time, updatedAt: Time, processedAt: Option<Time>,
    retryCount: nat, lastError: Option<string>)
  {
    /**
     * What every stored contact message satisfies: a pending message has
     * never been attempted, a failed one carries its error and a
     * processing time, a sent one a processing time.
     */
    predicate Consistent() {
      && (status == Pending ==> retryCount == 0 && lastError == None && processedAt == None)
      && (status == Failed ==> retryCount > 0 && lastError.Some? && processedAt.Some?)
      && (status == Sent ==> processedAt.Some?)
    }

    /** `later` is a later state of this message: same identity and payload, no fewer failures. */
    predicate EvolvesTo(later: ContactMessage) {
      && later.id == id && later.fields == fields && later.createdAt == createdAt
      && retryCount <= later.retryCount
    }

    function Queue(now: Time): ContactMessage {
      this.(status := Queued, updatedAt := now)
    }

    function Send(now: Time): ContactMessage {
      this.(status := Sent, processedAt := Some(now), updatedAt := now)
    }

    function Fail(error: string, now: Time): ContactMessage {
      this.(status := Failed, lastError := Some(error), retryCount := retryCount + 1,
            processedAt := Some(now), updatedAt := now)
    }
  }

  datatype NotificationLog = NotificationLog(
    id: Id, fields: NotificationFields, status: Status,
    createdAt: Time, updatedAt: Time, sentAt: Option<Time>,
    retryCount: nat, lastError: Option<string>)
  {
    /** What every stored notification satisfies. */
    predicate Consistent() {
      && (status == Pending ==> retryCount == 0 && lastError == None && sentAt == None)
      && (status == Failed ==> retryCount > 0 && lastError.Some?)
      && (status == Sent ==> sentAt.Some?)
    }

    predicate EvolvesTo(later: NotificationLog) {
      && later.id == id && later.fields == fields && later.createdAt == createdAt
      && retryCount <= later.retryCount
    }

    function Queue(now: Time): NotificationLog {
      this.(status := Queued, updatedAt := now)
    }

    function Send(now: Time): NotificationLog {
      this.(status := Sent, sentAt := Some(now), updatedAt := now)
    }

    function Fail(error: string, now: Time): NotificationLog {
      this.(status := Failed, lastError := Some(error), retryCount := retryCount + 1, updatedAt := now)
    }
  }

  /** A contact message as the serializer saves it: pending, never attempted. */
  function NewContactMessage(id: Id, fields: ContactFields, now: Time): (m: ContactMessage)
    ensures m.Consistent() && m.id == id && m.fields == fields
    ensures m.status == Pending && m.retryCount == 0 && m.lastError == None && m.processedAt == None
  {
    ContactMessage(id, fields, Pending, now, now, None, 0, None)
  }

  /** A notification as the serializer saves it: pending, never attempted. */
  function NewNotificationLog(id: Id, fields: NotificationFields, now: Time): (n: NotificationLog)
    ensures n.Consistent() && n.id == id && n.fields == fields
    ensures n.status == Pending && n.retryCount == 0 && n.lastError == None && n.sentAt == None
  {
    NotificationLog(id, fields, Pending, now, now, None, 0, None)
  }

  /** Each transition keeps a consistent message consistent and only ever raises its retry count. */
  lemma ContactTransitions(m: ContactMessage, error: string, now: Time)
    requires m.Consistent()
    ensures m.Queue(now).Consistent() && m.EvolvesTo(m.Queue(now))
    ensures m.Send(now).Consistent() && m.EvolvesTo(m.Send(now))
    ensures m.Fail(error, now).Consistent() && m.EvolvesTo(m.Fail(error, now))
  {
  }

  lemma NotificationTransitions(n: NotificationLog, error: string, now: Time)
    requires n.Consistent()
    ensures n.Queue(now).Consistent() && n.EvolvesTo(n.Queue(now))
    ensures n.Send(now).Consistent() && n.EvolvesTo(n.Send(now))
    ensures n.Fail(error, now).Consistent() && n.EvolvesTo(n.Fail(error, now))
  {
  }

  /** No two notifications share a (present) idempotency key. */
  ghost predicate UniqueKeys(logs: map<Id, NotificationLog>) {
    forall a, b | a in logs && b in logs && a != b ::
      logs[a].fields.idempotencyKey.None? || logs[a].fields.idempotencyKey != logs[b].fields.idempotencyKey
  }

  /** Some stored notification carries `key`. */
  ghost predicate KeyTaken(logs: map<Id, NotificationLog>, key: string) {
    exists id :: id in logs && logs[id].fields.idempotencyKey == Some(key)
  }

  /** The contact messages, keyed by id, and the ids handed to the dispatch queue. */
  class ContactStore {
    var messages: map<Id, ContactMessage>
    var dispatched: seq<Id>

    ghost predicate Valid()
      reads this
    {
      && (forall id | id in messages :: messages[id].id == id && messages[id].Consistent())
      && (forall i | 0 <= i < |dispatched| :: dispatched[i] in messages)
    }

    constructor ()
      ensures Valid() && messages == map[] && dispatched == []
    {
      messages := map[];
      dispatched := [];
    }

    /** Persists a new pending message under an unused id. */
    method Create(id: Id, fields: ContactFields, now: Time)
      requires Valid() && id !in messages
      modifies this`messages
      ensures Valid()
      ensures messages == old(messages)[id := NewContactMessage(id, fields, now)]
    {
      messages := messages[id := NewContactMessage(id, fields, now)];
    }

    /** Hands a stored message to the dispatch queue. */
    method Dispatch(id: Id)
      requires Valid() && id in messages
      modifies this`dispatched
      ensures Valid()
      ensures dispatched == old(dispatched) + [id]
    {
      dispatched := dispatched + [id];
    }

    /** `mark_as_queued`: only the status (to queued) and the update time change. */
    method MarkAsQueued(id: Id, now: Time)
      requires Valid() && id in messages
      modifies this`messages
      ensures Valid()
      ensures messages == old(messages)[id := old(messages)[id].Queue(now)]
      ensures messages[id].status == Queued
      ensures messages[id].retryCount == old(messages)[id].retryCount
      ensures messages[id].lastError == old(messages)[id].lastError
      ensures messages[id].processedAt == old(messages)[id].processedAt
    {
      ContactTransitions(messages[id], "", now);
      messages := messages[id := messages[id].Queue(now)];
    }

    /** `mark_as_sent`: status sent and a processing time; retry count and error untouched. */
    method MarkAsSent(id: Id, now: Time)
      requires Valid() && id in messages
      modifies this`messages
      ensures Valid()
      ensures messages == old(messages)[id := old(messages)[id].Send(now)]
      ensures messages[id].status == Sent && messages[id].processedAt == Some(now)
      ensures messages[id].retryCount == old(messages)[id].retryCount
      ensures messages[id].lastError == old(messages)[id].lastError
    {
      ContactTransitions(messages[id], "", now);
      messages := messages[id := messages[id].Send(now)];
    }

    /** `mark_as_failed`: status failed, the error kept, one more failure counted, a processing time. */
    method MarkAsFailed(id: Id, error: string, now: Time)
      requires Valid() && id in messages
      modifies this`messages
      ensures Valid()
      ensures messages == old(messages)[id := old(messages)[id].Fail(error, now)]
      ensures messages[id].status == Failed && messages[id].lastError == Some(error)
      ensures messages[id].retryCount == old(messages)[id].retryCount + 1
      ensures messages[id].processedAt == Some(now)
    {
      ContactTransitions(messages[id], error, now);
      messages := messages[id := messages[id].Fail(error, now)];
    }
  }

  /**
   * The notifications, keyed by id, the database's unique index on the
   * idempotency key, and the ids handed to the dispatch queue.
   */
  class NotificationStore {
    var logs: map<Id, NotificationLog>
    var keyIndex: map<string, Id>
    var dispatched: seq<Id>

    ghost predicate Valid()
      reads this
    {
      && (forall id | id in logs ::
            && logs[id].id == id && logs[id].Consistent()
            && (logs[id].fields.idempotencyKey.Some? ==>
                  logs[id].fields.idempotencyKey.value in keyIndex
                  && keyIndex[logs[id].fields.idempotencyKey.value] == id))
      && (forall key | key in keyIndex ::
            keyIndex[key] in logs && logs[keyIndex[key]].fields.idempotencyKey == Some(key))
      && (forall i | 0 <= i < |dispatched| :: dispatched[i] in logs)
    }

    /** The unique index keeps two stored notifications from sharing a key. */
    lemma KeysUnique()
      requires Valid()
      ensures UniqueKeys(logs)
    {
      forall a, b | a in logs && b in logs && a != b && logs[a].fields.idempotencyKey.Some?
        ensures logs[a].fields.idempotencyKey != logs[b].fields.idempotencyKey
      {
        var key := logs[a].fields.idempotencyKey.value;
        assert keyIndex[key] == a;
      }
    }

    constructor ()
      ensures Valid() && logs == map[] && keyIndex == map[] && dispatched == []
    {
      logs := map[];
      keyIndex := map[];
      dispatched := [];
    }

    /**
     * Persists a new pending notification under an unused id, unless its
     * idempotency key is already taken, in which case the unique index
     * refuses the row and nothing changes.
     */
    method Create(id: Id, fields: NotificationFields, now: Time) returns (inserted: bool)
      requires Valid() && id !in logs
      modifies this`logs, this`keyIndex
      ensures Valid()
      ensures inserted <==> fields.idempotencyKey.None? || !KeyTaken(old(logs), fields.idempotencyKey.value)
      ensures logs == if inserted then old(logs)[id := NewNotificationLog(id, fields, now)] else old(logs)
      ensures keyIndex == if inserted && fields.idempotencyKey.Some? then old(keyIndex)[fields.idempotencyKey.value := id]
                          else old(keyIndex)
    {
      inserted := true;
      if fields.idempotencyKey.Some? {
        var taken := FindByKey(fields.idempotencyKey.value);
        inserted := taken.None?;
        if inserted {
          keyIndex := keyIndex[fields.idempotencyKey.value := id];
        }
      }
      if inserted {
        logs := logs[id := NewNotificationLog(id, fields, now)];
      }
    }

    /** The stored notification carrying `key`, if any; there is at most one. */
    method FindByKey(key: string) returns (found: Option<Id>)
      requires Valid()
      ensures found.Some? <==> KeyTaken(logs, key)
      ensures forall id | id in logs && logs[id].fields.idempotencyKey == Some(key) :: found == Some(id)
    {
      if key in keyIndex {
        found := Some(keyIndex[key]);
      } else {
        found := None;
      }
    }

    method Dispatch(id: Id)
      requires Valid() && id in logs
      modifies this`dispatched
      ensures Valid()
      ensures dispatched == old(dispatched) + [id]
    {
      dispatched := dispatched + [id];
    }

    /** `mark_as_queued`: only the status (to queued) and the update time change. */
    method MarkAsQueued(id: Id, now: Time)
      requires Valid() && id in logs
      modifies this`logs
      ensures Valid()
      ensures logs == old(logs)[id := old(logs)[id].Queue(now)]
      ensures logs[id].status == Queued
      ensures logs[id].retryCount == old(logs)[id].retryCount
      ensures logs[id].lastError == old(logs)[id].lastError
      ensures logs[id].sentAt == old(logs)[id].sentAt
    {
      NotificationTransitions(logs[id], "", now);
      logs := logs[id := logs[id].Queue(now)];
    }

    /** `mark_as_sent`: status sent and a sending time; retry count and error untouched. */
    method MarkAsSent(id: Id, now: Time)
      requires Valid() && id in logs
      modifies this`logs
      ensures Valid()
      ensures logs == old(logs)[id := old(logs)[id].Send(now)]
      ensures logs[id].status == Sent && logs[id].sentAt == Some(now)
      ensures logs[id].retryCount == old(logs)[id].retryCount
      ensures logs[id].lastError == old(logs)[id].lastError
    {
      NotificationTransitions(logs[id], "", now);
      logs := logs[id := logs[id].Send(now)];
    }

    /** `mark_as_failed`: status failed, the error kept, one more failure counted; the sending time is left alone. */
    method MarkAsFailed(id: Id, error: string, now: Time)
      requires Valid() && id in logs
      modifies this`logs
      ensures Valid()
      ensures logs == old(logs)[id := old(logs)[id].Fail(error, now)]
      ensures logs[id].status == Failed && logs[id].lastError == Some(error)
      ensures logs[id].retryCount == old(logs)[id].retryCount + 1
      ensures logs[id].sentAt == old(logs)[id].sentAt
    {
      NotificationTransitions(logs[id], error, now);
      logs := logs[id := logs[id].Fail(error, now)];
    }
  }
}
