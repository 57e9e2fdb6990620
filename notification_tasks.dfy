/**
 * The delivery worker. One call of a task loads its record, marks it
 * queued, asks for delivery, and marks it sent or failed; on failure it
 * calls the queue's `retry`, which schedules another call RetryDelay
 * seconds later while fewer than `max_retries` re-runs have happened, and
 * otherwise re-raises the error.
 *
 * A task call is a method taking its run number (the queue's
 * `request.retries`, 0 for the first call). What the queue's repeated calls
 * do to a record is described by functions over a delivery schedule:
 * `succeeds(k)` is whether run k's delivery succeeds, and run k happens at
 * `start + k * RetryDelay`.
 */
module NotificationTasks {
  import opened Wrappers
  import opened NotificationModels
  import Mailer

  /** The ceiling both tasks declare: re-attempts after the first attempt. */
  const MaxRetries: nat := 3
  /** Seconds between attempts. */
  const RetryDelay: nat := 5

  const ContactFailure: string := "Failed to send email"
  const NotificationFailure: string := "Failed to send notification"
  const ContactNotFound: string := "Contact message not found"
  const NotificationNotFound: string := "Notification not found"

  /**
   * How one task call ends: its `sent` or `error` result dict, another call
   * scheduled `countdown` seconds later, or the error re-raised for good.
   */
  datatype TaskResult =
    | SentResult(id: Id)
    | ErrorResult(message: string)
    | Retry(error: string, countdown: nat)
    | GaveUp(error: string)

  /**
   * The queue's `retry(exc=...)` on run number `retries`: another run is
   * scheduled while fewer than `maxRetries` re-runs have happened;
   * otherwise the error is re-raised.
   */
  function RetryOrGiveUp(retries: nat, maxRetries: nat, error: string): (r: TaskResult)
    ensures r.Retry? <==> retries < maxRetries
    ensures r.Retry? ==> r == Retry(error, RetryDelay)
    ensures !r.Retry? ==> r == GaveUp(error)
  {
    if retries + 1 > maxRetries then GaveUp(error) else Retry(error, RetryDelay)
  }

  function AttemptTime(start: Time, attempt: nat): Time {
    start + attempt * RetryDelay
  }

  // ---------------------------------------------------------------------------
  // The attempt schedule

  /** The first attempt from `from` up to `maxRetries` whose delivery succeeds. */
  function FirstSuccessFrom(succeeds: nat -> bool, from: nat, maxRetries: nat): (r: Option<nat>)
    ensures r.Some? ==> from <= r.value <= maxRetries && succeeds(r.value)
                        && forall i :: from <= i < r.value ==> !succeeds(i)
    ensures r.None? ==> forall i :: from <= i <= maxRetries ==> !succeeds(i)
    decreases maxRetries - from
  {
    if from > maxRetries then None
    else if succeeds(from) then Some(from)
    else FirstSuccessFrom(succeeds, from + 1, maxRetries)
  }

  /**
   * How many times a task body runs: until the first success, and never
   * more than once plus `maxRetries` re-attempts. Every attempt but the last
   * fails; the last fails only when the ceiling is reached.
   */
  function AttemptCount(succeeds: nat -> bool, maxRetries: nat): (n: nat)
    ensures 1 <= n <= maxRetries + 1
    ensures forall i :: 0 <= i < n - 1 ==> !succeeds(i)
    ensures n <= maxRetries ==> succeeds(n - 1)
  {
    match FirstSuccessFrom(succeeds, 0, maxRetries)
    case Some(k) => k + 1
    case None => maxRetries + 1
  }

  /** The attempt count is pinned down by where the first success (or the ceiling) lies. */
  lemma AttemptCountIs(succeeds: nat -> bool, maxRetries: nat, last: nat)
    requires last <= maxRetries
    requires forall i :: 0 <= i < last ==> !succeeds(i)
    requires succeeds(last) || last == maxRetries
    ensures AttemptCount(succeeds, maxRetries) == last + 1
  {
  }

  /** The number of failed deliveries among attempts 0 .. n-1. */
  function Failures(succeeds: nat -> bool, n: nat): (f: nat)
    ensures f <= n
  {
    if n == 0 then 0 else Failures(succeeds, n - 1) + (if succeeds(n - 1) then 0 else 1)
  }

  /** Attempts that all fail are all counted. */
  lemma {:induction false} FailuresOfFailingPrefix(succeeds: nat -> bool, n: nat)
    requires forall i :: 0 <= i < n ==> !succeeds(i)
    ensures Failures(succeeds, n) == n
  {
    if n > 0 {
      FailuresOfFailingPrefix(succeeds, n - 1);
    }
  }

  /**
   * Over a whole run, the failures are every attempt before the first
   * success; with no success within the ceiling, all 1 + maxRetries attempts.
   */
  lemma RunFailures(succeeds: nat -> bool, maxRetries: nat)
    ensures var n := AttemptCount(succeeds, maxRetries);
            Failures(succeeds, n) == if succeeds(n - 1) then n - 1 else n
  {
    var n := AttemptCount(succeeds, maxRetries);
    FailuresOfFailingPrefix(succeeds, n - 1);
  }

  /** What run k of a task on record `id` reports under the schedule `succeeds`. */
  function RunResult(succeeds: nat -> bool, k: nat, maxRetries: nat, id: Id, error: string): TaskResult {
    if succeeds(k) then SentResult(id) else RetryOrGiveUp(k, maxRetries, error)
  }

  /**
   * The queue calls a task exactly AttemptCount times: every run before the
   * last asks for another, and the last one does not.
   */
  lemma RunsStopAtAttemptCount(succeeds: nat -> bool, maxRetries: nat, id: Id, error: string)
    ensures var n := AttemptCount(succeeds, maxRetries);
            && (forall k :: 0 <= k < n - 1 ==> RunResult(succeeds, k, maxRetries, id, error).Retry?)
            && !RunResult(succeeds, n - 1, maxRetries, id, error).Retry?
            && RunResult(succeeds, n - 1, maxRetries, id, error)
               == if succeeds(n - 1) then SentResult(id) else GaveUp(error)
  {
  }

  // ---------------------------------------------------------------------------
  // Contact messages

  const ContactNoticeSubjectPrefix: string := "Nuevo mensaje de contacto de "

  /** The notice the contact task mails: subject and body name the sender, the body carries the message. */
  function ContactNoticeBody(fields: ContactFields): string {
    NoticeHead + fields.name + NoticeEmailLabel + fields.email + NoticeMessageLabel + fields.message + NoticeFooter
  }

  const NoticeHead: string := "\n        Nuevo mensaje de contacto recibido:\n        \n        Nombre: "
  const NoticeEmailLabel: string := "\n        Email: "
  const NoticeMessageLabel: string := "\n        \n        Mensaje:\n        "
  const NoticeFooter: string := "\n        \n        ---\n        Enviado desde Email Service\n        "

  /**
   * The contact notice goes to the service's own address (`DEFAULT_FROM_EMAIL`),
   * from the sender's address, with the sender named in the subject.
   */
  function ContactNotice(fields: ContactFields, defaultFrom: string): (m: Mailer.Message)
    ensures m.to == [defaultFrom] && m.subject == ContactNoticeSubjectPrefix + fields.name
    ensures m.fromEmail == (if fields.email != "" then fields.email else defaultFrom)
    ensures m.text == Some(ContactNoticeBody(fields)) && m.html == None
  {
    Mailer.Compose([defaultFrom], ContactNoticeSubjectPrefix + fields.name, ContactNoticeBody(fields),
                   Some(fields.email), None, defaultFrom)
  }

  /** A contact message after one run of a task body: queued, then sent or failed. */
  function ContactAfterAttempt(m: ContactMessage, delivered: bool, now: Time): ContactMessage {
    if delivered then m.Queue(now).Send(now) else m.Queue(now).Fail(ContactFailure, now)
  }

  /** A contact message after attempts 0 .. n-1. */
  function ContactAfterAttempts(m: ContactMessage, succeeds: nat -> bool, n: nat, start: Time): ContactMessage {
    if n == 0 then m
    else ContactAfterAttempt(ContactAfterAttempts(m, succeeds, n - 1, start), succeeds(n - 1), AttemptTime(start, n - 1))
  }

  /**
   * After n attempts the retry count has grown by exactly the failed
   * attempts, the record is a later state of the same message, stays
   * consistent, and its status is the last attempt's verdict.
   */
  lemma {:induction false} ContactAttemptsFacts(m: ContactMessage, succeeds: nat -> bool, n: nat, start: Time)
    requires m.Consistent()
    ensures var r := ContactAfterAttempts(m, succeeds, n, start);
            && r.retryCount == m.retryCount + Failures(succeeds, n)
            && m.EvolvesTo(r) && r.Consistent()
            && (n > 0 ==> r.status == if succeeds(n - 1) then Sent else Failed)
            && (n > 0 ==> r.processedAt == Some(AttemptTime(start, n - 1)))
  {
    if n > 0 {
      ContactAttemptsFacts(m, succeeds, n - 1, start);
      var prev := ContactAfterAttempts(m, succeeds, n - 1, start);
      ContactTransitions(prev, ContactFailure, AttemptTime(start, n - 1));
      ContactTransitions(prev.Queue(AttemptTime(start, n - 1)), ContactFailure, AttemptTime(start, n - 1));
    }
  }

  /** The record a whole contact task leaves behind. */
  function ContactTaskOutcome(m: ContactMessage, succeeds: nat -> bool, maxRetries: nat, start: Time): ContactMessage {
    ContactAfterAttempts(m, succeeds, AttemptCount(succeeds, maxRetries), start)
  }

  /**
   * A delivery that never succeeds: a task runs 1 + maxRetries times and
   * leaves the message failed with 1 + maxRetries more failures counted.
   */
  lemma ContactAlwaysFailing(m: ContactMessage, succeeds: nat -> bool, maxRetries: nat, start: Time)
    requires m.Consistent()
    requires forall i :: !succeeds(i)
    ensures AttemptCount(succeeds, maxRetries) == maxRetries + 1
    ensures var r := ContactTaskOutcome(m, succeeds, maxRetries, start);
            r.status == Failed && r.retryCount == m.retryCount + maxRetries + 1
            && r.lastError == Some(ContactFailure)
  {
    AttemptCountIs(succeeds, maxRetries, maxRetries);
    RunFailures(succeeds, maxRetries);
    ContactAttemptsFacts(m, succeeds, maxRetries + 1, start);
  }

  /**
   * A delivery that fails k times and then succeeds, within the ceiling:
   * the message ends sent with exactly k more failures counted.
   */
  lemma ContactEventualSuccess(m: ContactMessage, succeeds: nat -> bool, maxRetries: nat, start: Time, k: nat)
    requires m.Consistent()
    requires k <= maxRetries && succeeds(k) && forall i :: 0 <= i < k ==> !succeeds(i)
    ensures AttemptCount(succeeds, maxRetries) == k + 1
    ensures var r := ContactTaskOutcome(m, succeeds, maxRetries, start);
            r.status == Sent && r.retryCount == m.retryCount + k && r.processedAt == Some(AttemptTime(start, k))
  {
    AttemptCountIs(succeeds, maxRetries, k);
    RunFailures(succeeds, maxRetries);
    ContactAttemptsFacts(m, succeeds, k + 1, start);
  }

  /**
   * With the declared ceiling of 3, a new message whose delivery always
   * fails ends failed after 4 attempts with a retry count of 4; one whose
   * delivery fails twice and then succeeds ends sent with a retry count of 2.
   */
  lemma ContactCeilingExamples(id: Id, fields: ContactFields, now: Time, start: Time)
    ensures var m := NewContactMessage(id, fields, now);
            var never := (i: nat) => false;
            var third := (i: nat) => i >= 2;
            && ContactTaskOutcome(m, never, MaxRetries, start).status == Failed
            && ContactTaskOutcome(m, never, MaxRetries, start).retryCount == 4
            && ContactTaskOutcome(m, third, MaxRetries, start).status == Sent
            && ContactTaskOutcome(m, third, MaxRetries, start).retryCount == 2
  {
    var m := NewContactMessage(id, fields, now);
    ContactAlwaysFailing(m, (i: nat) => false, MaxRetries, start);
    ContactEventualSuccess(m, (i: nat) => i >= 2, MaxRetries, start, 2);
  }

  /**
   * One call of `send_contact_email_task`, as run number `retries`: a
   * missing message is an error result with nothing changed; otherwise the
   * message is marked queued, the notice is handed to delivery, and the
   * message is marked sent (result `sent`) or failed (and the queue's retry,
   * under its declared ceiling `maxRetries`, decides what follows).
   */
  method SendContactEmailTask(store: ContactStore, id: Id, retries: nat, maxRetries: nat, delivered: bool,
                              now: Time, defaultFrom: string)
    returns (result: TaskResult, notice: Option<Mailer.Message>)
    requires store.Valid()
    modifies store`messages
    ensures store.Valid()
    ensures id !in old(store.messages) ==>
              result == ErrorResult(ContactNotFound) && notice == None && store.messages == old(store.messages)
    ensures id in old(store.messages) ==>
              && store.messages == old(store.messages)[id := ContactAfterAttempt(old(store.messages)[id], delivered, now)]
              && result == (if delivered then SentResult(id) else RetryOrGiveUp(retries, maxRetries, ContactFailure))
              && notice == Some(ContactNotice(old(store.messages)[id].fields, defaultFrom))
  {
    if id !in store.messages {
      return ErrorResult(ContactNotFound), None;
    }
    notice := Some(ContactNotice(store.messages[id].fields, defaultFrom));
    store.MarkAsQueued(id, now);
    if delivered {
      store.MarkAsSent(id, now);
      result := SentResult(id);
    } else {
      store.MarkAsFailed(id, ContactFailure, now);
      result := RetryOrGiveUp(retries, maxRetries, ContactFailure);
    }
  }

  /**
   * Where the queue stands after `runs` runs of the contact task on `id`:
   * the message has gone through those attempts, `last` is what the latest
   * run reported, and every run before it failed.
   */
  ghost predicate ContactRunState(messages: map<Id, ContactMessage>, before: map<Id, ContactMessage>, m: ContactMessage,
                                  succeeds: nat -> bool, id: Id, start: Time, maxRetries: nat, runs: nat,
                                  last: TaskResult)
  {
    && runs <= maxRetries + 1
    && messages == before[id := ContactAfterAttempts(m, succeeds, runs, start)]
    && (runs > 0 ==> last == RunResult(succeeds, runs - 1, maxRetries, id, ContactFailure))
    && (!last.Retry? ==> runs > 0)
    && (forall i :: 0 <= i < runs - 1 ==> !succeeds(i))
    && (last.Retry? ==> runs <= maxRetries && (runs > 0 ==> !succeeds(runs - 1)))
  }

  /** One more run, delivering or not as the schedule says, moves the queue one run on. */
  lemma ContactRunStep(messages: map<Id, ContactMessage>, before: map<Id, ContactMessage>, m: ContactMessage,
                       succeeds: nat -> bool, id: Id, start: Time, maxRetries: nat, runs: nat,
                       previous: TaskResult, result: TaskResult)
    requires ContactRunState(messages, before, m, succeeds, id, start, maxRetries, runs, previous) && previous.Retry?
    requires result == if succeeds(runs) then SentResult(id) else RetryOrGiveUp(runs, maxRetries, ContactFailure)
    ensures id in messages
    ensures ContactRunState(messages[id := ContactAfterAttempt(messages[id], succeeds(runs), AttemptTime(start, runs))],
                            before, m, succeeds, id, start, maxRetries, runs + 1, result)
  {
    assert ContactAfterAttempts(m, succeeds, runs + 1, start)
        == ContactAfterAttempt(ContactAfterAttempts(m, succeeds, runs, start), succeeds(runs), AttemptTime(start, runs));
  }

  /** The queue's next run of the contact task, after a run that asked for a retry. */
  method ContactRun(store: ContactStore, id: Id, succeeds: nat -> bool, start: Time, maxRetries: nat,
                    defaultFrom: string, runs: nat, previous: TaskResult, ghost before: map<Id, ContactMessage>,
                    ghost m: ContactMessage)
    returns (last: TaskResult)
    requires store.Valid() && previous.Retry?
    requires ContactRunState(store.messages, before, m, succeeds, id, start, maxRetries, runs, previous)
    modifies store`messages
    ensures store.Valid()
    ensures ContactRunState(store.messages, before, m, succeeds, id, start, maxRetries, runs + 1, last)
  {
    ghost var messages := store.messages;
    var notice;
    last, notice := SendContactEmailTask(store, id, runs, maxRetries, succeeds(runs), AttemptTime(start, runs), defaultFrom);
    ContactRunStep(messages, before, m, succeeds, id, start, maxRetries, runs, previous, last);
  }

  /**
   * The queue running `send_contact_email_task` on a stored message: run 0
   * at `start`, and another run RetryDelay seconds later for as long as the
   * previous run asked for one. Run k's delivery succeeds when `succeeds(k)`.
   * Both tasks declare the ceiling MaxRetries; any ceiling behaves alike.
   */
  method RunContactTask(store: ContactStore, id: Id, succeeds: nat -> bool, start: Time, maxRetries: nat,
                        defaultFrom: string)
    returns (runs: nat, last: TaskResult)
    requires store.Valid() && id in store.messages
    modifies store`messages
    ensures store.Valid()
    ensures runs == AttemptCount(succeeds, maxRetries)
    ensures store.messages == old(store.messages)[id := ContactTaskOutcome(old(store.messages)[id], succeeds, maxRetries, start)]
    ensures last == if succeeds(runs - 1) then SentResult(id) else GaveUp(ContactFailure)
  {
    ghost var before := store.messages;
    ghost var m := store.messages[id];
    runs := 0;
    last := Retry(ContactFailure, RetryDelay);
    assert before[id := m] == before;
    while last.Retry?
      invariant store.Valid()
      invariant ContactRunState(store.messages, before, m, succeeds, id, start, maxRetries, runs, last)
      decreases maxRetries + 1 - runs
    {
      last := ContactRun(store, id, succeeds, start, maxRetries, defaultFrom, runs, last, before, m);
      runs := runs + 1;
    }
    AttemptCountIs(succeeds, maxRetries, runs - 1);
  }

  // ---------------------------------------------------------------------------
  // Notifications

  /** The email a notification of type email is delivered as: its recipient, subject and body, from the default sender. */
  function NotificationEmail(fields: NotificationFields, defaultFrom: string): (m: Mailer.Message)
    ensures m.to == [fields.to] && m.subject == fields.subject && m.fromEmail == defaultFrom
    ensures m.text == Some(fields.body) && m.html == None
  {
    Mailer.Compose([fields.to], fields.subject, fields.body, None, None, defaultFrom)
  }

  /**
   * Whether attempt k of a notification delivers: email asks the transport;
   * SMS and push have no channel yet and count as delivered.
   */
  function Delivery(fields: NotificationFields, succeeds: nat -> bool): nat -> bool {
    (k: nat) => fields.notificationType != Email || succeeds(k)
  }

  /** A notification after one run of a task body: queued, then sent or failed. */
  function NotificationAfterAttempt(n: NotificationLog, delivered: bool, now: Time): NotificationLog {
    if delivered then n.Queue(now).Send(now) else n.Queue(now).Fail(NotificationFailure, now)
  }

  /** A notification after attempts 0 .. k-1. */
  function NotificationAfterAttempts(n: NotificationLog, delivers: nat -> bool, k: nat, start: Time): NotificationLog {
    if k == 0 then n
    else NotificationAfterAttempt(NotificationAfterAttempts(n, delivers, k - 1, start), delivers(k - 1), AttemptTime(start, k - 1))
  }

  /**
   * After k attempts the retry count has grown by exactly the failed
   * attempts, the log is a later state of the same notification, stays
   * consistent, and its status is the last attempt's verdict.
   */
  lemma {:induction false} NotificationAttemptsFacts(n: NotificationLog, delivers: nat -> bool, k: nat, start: Time)
    requires n.Consistent()
    ensures var r := NotificationAfterAttempts(n, delivers, k, start);
            && r.retryCount == n.retryCount + Failures(delivers, k)
            && n.EvolvesTo(r) && r.Consistent()
            && (k > 0 ==> r.status == if delivers(k - 1) then Sent else Failed)
  {
    if k > 0 {
      NotificationAttemptsFacts(n, delivers, k - 1, start);
      var prev := NotificationAfterAttempts(n, delivers, k - 1, start);
      NotificationTransitions(prev, NotificationFailure, AttemptTime(start, k - 1));
      NotificationTransitions(prev.Queue(AttemptTime(start, k - 1)), NotificationFailure, AttemptTime(start, k - 1));
    }
  }

  /** The log a whole notification task leaves behind. */
  function NotificationTaskOutcome(n: NotificationLog, succeeds: nat -> bool, maxRetries: nat, start: Time): NotificationLog {
    var delivers := Delivery(n.fields, succeeds);
    NotificationAfterAttempts(n, delivers, AttemptCount(delivers, maxRetries), start)
  }

  /**
   * An SMS or push notification is never retried: one run marks it sent
   * at the start time, with its retry count and error untouched.
   */
  lemma NonEmailSentAtOnce(n: NotificationLog, succeeds: nat -> bool, maxRetries: nat, start: Time)
    requires n.Consistent() && n.fields.notificationType != Email
    ensures AttemptCount(Delivery(n.fields, succeeds), maxRetries) == 1
    ensures var r := NotificationTaskOutcome(n, succeeds, maxRetries, start);
            r.status == Sent && r.sentAt == Some(start)
            && r.retryCount == n.retryCount && r.lastError == n.lastError
  {
    var delivers := Delivery(n.fields, succeeds);
    AttemptCountIs(delivers, maxRetries, 0);
    assert delivers(0);
    assert NotificationAfterAttempts(n, delivers, 0, start) == n;
    assert NotificationAfterAttempts(n, delivers, 1, start) == n.Queue(start).Send(start);
  }

  /**
   * An email notification whose delivery never succeeds: 1 + maxRetries
   * runs, and the log ends failed with that many more failures counted.
   */
  lemma NotificationAlwaysFailing(n: NotificationLog, succeeds: nat -> bool, maxRetries: nat, start: Time)
    requires n.Consistent() && n.fields.notificationType == Email
    requires forall i :: !succeeds(i)
    ensures AttemptCount(Delivery(n.fields, succeeds), maxRetries) == maxRetries + 1
    ensures var r := NotificationTaskOutcome(n, succeeds, maxRetries, start);
            r.status == Failed && r.retryCount == n.retryCount + maxRetries + 1
            && r.lastError == Some(NotificationFailure)
  {
    var delivers := Delivery(n.fields, succeeds);
    AttemptCountIs(delivers, maxRetries, maxRetries);
    RunFailures(delivers, maxRetries);
    NotificationAttemptsFacts(n, delivers, maxRetries + 1, start);
  }

  /**
   * An email notification whose delivery fails k times and then succeeds,
   * within the ceiling: the log ends sent with exactly k more failures counted.
   */
  lemma NotificationEventualSuccess(n: NotificationLog, succeeds: nat -> bool, maxRetries: nat, start: Time, k: nat)
    requires n.Consistent()
    requires k <= maxRetries && succeeds(k) && forall i :: 0 <= i < k ==> !succeeds(i)
    ensures var r := NotificationTaskOutcome(n, succeeds, maxRetries, start);
            r.status == Sent && r.retryCount == n.retryCount + (if n.fields.notificationType == Email then k else 0)
  {
    var delivers := Delivery(n.fields, succeeds);
    var last := if n.fields.notificationType == Email then k else 0;
    AttemptCountIs(delivers, maxRetries, last);
    RunFailures(delivers, maxRetries);
    NotificationAttemptsFacts(n, delivers, last + 1, start);
  }

  /**
   * One call of `send_notification_task`, as run number `retries`: a
   * missing notification is an error result with nothing changed;
   * otherwise the log is marked queued, an email notification is handed to
   * delivery (an SMS or push one is not, and counts as delivered), and the
   * log is marked sent (result `sent`) or failed (and the queue's retry,
   * under its declared ceiling `maxRetries`, decides what follows).
   */
  method SendNotificationTask(store: NotificationStore, id: Id, retries: nat, maxRetries: nat, transportOk: bool,
                              now: Time, defaultFrom: string)
    returns (result: TaskResult, email: Option<Mailer.Message>)
    requires store.Valid()
    modifies store`logs
    ensures store.Valid()
    ensures id !in old(store.logs) ==>
              result == ErrorResult(NotificationNotFound) && email == None && store.logs == old(store.logs)
    ensures id in old(store.logs) ==>
              var n := old(store.logs)[id];
              var delivered := n.fields.notificationType != Email || transportOk;
              && store.logs == old(store.logs)[id := NotificationAfterAttempt(n, delivered, now)]
              && result == (if delivered then SentResult(id) else RetryOrGiveUp(retries, maxRetries, NotificationFailure))
              && email == (if n.fields.notificationType == Email then Some(NotificationEmail(n.fields, defaultFrom)) else None)
  {
    if id !in store.logs {
      return ErrorResult(NotificationNotFound), None;
    }
    store.MarkAsQueued(id, now);
    var fields := store.logs[id].fields;
    var delivered;
    if fields.notificationType == Email {
      email := Some(NotificationEmail(fields, defaultFrom));
      delivered := transportOk;
    } else {
      email := None;
      delivered := true;
    }
    if delivered {
      store.MarkAsSent(id, now);
      result := SentResult(id);
    } else {
      store.MarkAsFailed(id, NotificationFailure, now);
      result := RetryOrGiveUp(retries, maxRetries, NotificationFailure);
    }
  }

  /**
   * Where the queue stands after `runs` runs of the notification task on
   * `id`: the log has gone through those attempts, `last` is what the latest
   * run reported, and every run before it failed to deliver.
   */
  ghost predicate NotificationRunState(logs: map<Id, NotificationLog>, before: map<Id, NotificationLog>,
                                       n: NotificationLog, delivers: nat -> bool, id: Id, start: Time,
                                       maxRetries: nat, runs: nat, last: TaskResult)
  {
    && runs <= maxRetries + 1
    && logs == before[id := NotificationAfterAttempts(n, delivers, runs, start)]
    && (runs > 0 ==> last == RunResult(delivers, runs - 1, maxRetries, id, NotificationFailure))
    && (!last.Retry? ==> runs > 0)
    && (forall i :: 0 <= i < runs - 1 ==> !delivers(i))
    && (last.Retry? ==> runs <= maxRetries && (runs > 0 ==> !delivers(runs - 1)))
  }

  /** One more run, delivering or not as the schedule says, moves the queue one run on. */
  lemma NotificationRunStep(logs: map<Id, NotificationLog>, before: map<Id, NotificationLog>, n: NotificationLog,
                            delivers: nat -> bool, id: Id, start: Time, maxRetries: nat, runs: nat,
                            previous: TaskResult, result: TaskResult)
    requires NotificationRunState(logs, before, n, delivers, id, start, maxRetries, runs, previous) && previous.Retry?
    requires result == if delivers(runs) then SentResult(id) else RetryOrGiveUp(runs, maxRetries, NotificationFailure)
    ensures id in logs
    ensures NotificationRunState(logs[id := NotificationAfterAttempt(logs[id], delivers(runs), AttemptTime(start, runs))],
                                 before, n, delivers, id, start, maxRetries, runs + 1, result)
  {
    assert NotificationAfterAttempts(n, delivers, runs + 1, start)
        == NotificationAfterAttempt(NotificationAfterAttempts(n, delivers, runs, start), delivers(runs), AttemptTime(start, runs));
  }

  /** The queue's next run of the notification task, after a run that asked for a retry. */
  method NotificationRun(store: NotificationStore, id: Id, succeeds: nat -> bool, start: Time, maxRetries: nat,
                         defaultFrom: string, runs: nat, previous: TaskResult, ghost before: map<Id, NotificationLog>,
                         ghost n: NotificationLog)
    returns (last: TaskResult)
    requires store.Valid() && previous.Retry? && n.Consistent()
    requires NotificationRunState(store.logs, before, n, Delivery(n.fields, succeeds), id, start, maxRetries, runs, previous)
    modifies store`logs
    ensures store.Valid()
    ensures NotificationRunState(store.logs, before, n, Delivery(n.fields, succeeds), id, start, maxRetries, runs + 1, last)
  {
    ghost var delivers := Delivery(n.fields, succeeds);
    ghost var logs := store.logs;
    assert logs[id].fields == n.fields by {
      NotificationAttemptsFacts(n, delivers, runs, start);
    }
    assert delivers(runs) == (logs[id].fields.notificationType != Email || succeeds(runs));
    var email;
    last, email := SendNotificationTask(store, id, runs, maxRetries, succeeds(runs), AttemptTime(start, runs), defaultFrom);
    NotificationRunStep(logs, before, n, delivers, id, start, maxRetries, runs, previous, last);
  }

  /**
   * The queue running `send_notification_task` on a stored notification:
   * run 0 at `start`, and another run RetryDelay seconds later for as long
   * as the previous run asked for one. Run k's transport succeeds when
   * `succeeds(k)`; an SMS or push notification does not use it.
   */
  method RunNotificationTask(store: NotificationStore, id: Id, succeeds: nat -> bool, start: Time, maxRetries: nat,
                             defaultFrom: string)
    returns (runs: nat, last: TaskResult)
    requires store.Valid() && id in store.logs
    modifies store`logs
    ensures store.Valid()
    ensures runs == AttemptCount(Delivery(old(store.logs)[id].fields, succeeds), maxRetries)
    ensures store.logs == old(store.logs)[id := NotificationTaskOutcome(old(store.logs)[id], succeeds, maxRetries, start)]
    ensures last == if Delivery(old(store.logs)[id].fields, succeeds)(runs - 1) then SentResult(id)
                    else GaveUp(NotificationFailure)
  {
    ghost var before := store.logs;
    ghost var n := store.logs[id];
    ghost var delivers := Delivery(n.fields, succeeds);
    runs := 0;
    last := Retry(NotificationFailure, RetryDelay);
    assert before[id := n] == before;
    while last.Retry?
      invariant store.Valid()
      invariant NotificationRunState(store.logs, before, n, delivers, id, start, maxRetries, runs, last)
      decreases maxRetries + 1 - runs
    {
      last := NotificationRun(store, id, succeeds, start, maxRetries, defaultFrom, runs, last, before, n);
      runs := runs + 1;
    }
    AttemptCountIs(delivers, maxRetries, runs - 1);
  }
}
