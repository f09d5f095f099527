/**
 Rows of the booking-notice outbox and what every transaction does to them.

 Each function below is one transaction closure: it maps the rows it is given to the
 rows it writes back.  `Repository` runs the same transactions in place on the stored
 rows, and `OutboxMachine` interleaves them.
 */
module OutboxRows {
  import opened Options

  /** Seconds; 0 is the zero time. */
  type Time = nat

  /** A random worker identity; 0 is the empty one. */
  type Owner = nat

  const DELIVER_LEASE: Time := 120
  const SMS_LEASE: Time := 60
  const SMS_PACE: Time := 300
  const SMS_WATCH: Time := 86400
  const REMINDER_GRACE: Time := 900

  datatype Route = Telegram | TelegramAccount | WhatsApp | Sms

  datatype Kind = NoKind | EventRow | RecordRow | DeliveryRow

  datatype State = NoState | Pending | Prepared | Done | Sending | RetryableRejection

  datatype Outcome =
    | NoOutcome
    | Accepted(route: Route) | Uncertain(route: Route) | Rejected(route: Route)
    | DuplicateOrStale | ExistingOrAssistantBooking
    | RecordUnavailable | Superseded | AppointmentStarted | ReminderExpired | NoValidPhone | NoLinkedMessenger
    | AlreadyAttemptedOrUncertain
    | UnconfirmedSms | DeliveredSms | FailedSms | CancelledSms | SmsAlertRetryable

  /** What a provider last reported: a WhatsApp receipt, or the state of an SMS. */
  datatype Report =
    | NoReport
    | ReceiptSent | ReceiptFailed | ReceiptDelivered | ReceiptRead
    | SmsPending | SmsProcessed | SmsSent | SmsCancelling | SmsDelivered | SmsFailed | SmsCancelled

  datatype Status = Confirmed | Cancelled

  /** The parts of a booking a customer is told about; its hash is taken to be injective. */
  datatype Version = Version(
    phone: string, staff: string, status: Status, services: seq<string>, start: Time, duration: nat)

  datatype Snapshot = Snapshot(version: Version, changedAt: Time, createdAt: Time, comment: string, attended: bool)

  datatype Purpose = BookingCreated | BookingChanged | BookingCancelled | BookingReminder

  datatype Notice = Notice(id: string, snapshot: Snapshot, purpose: Purpose, fingerprint: Version)

  datatype Event = Event(id: string, recordId: string, receivedAt: Time)

  datatype Entry = Entry(
    kind: Kind, state: State, event: Event, notice: Option<Notice>,
    fingerprint: Option<Version>, changedAt: Time,
    leaseOwner: Owner, leaseUntil: Time,
    outcome: Outcome, attempted: seq<Route>, report: Report,
    nextLookupAt: Time, alertedAt: Time)

  /** What the store hands out for a key it has never seen. */
  const BLANK: Entry :=
    Entry(NoKind, NoState, Event("", "", 0), None, None, 0, 0, 0, NoOutcome, [], NoReport, 0, 0)

  /** What a provider call came back with; only `Refused` proves the message was not taken. */
  datatype Answer = Taken | Refused | Unclear

  function Ingest(row: Entry, e: Event): Entry {
    if row.kind == NoKind then BLANK.(kind := EventRow, state := Pending, event := e) else row
  }

  function QueueReminder(row: Entry, e: Event, notice: Notice): Entry {
    if row.kind == NoKind
    then BLANK.(kind := EventRow, state := Prepared, event := e, notice := Some(notice))
    else row
  }

  datatype ClaimResult = Busy | Nothing | Leased(row: Entry)

  function Claim(row: Entry, owner: Owner, now: Time): ClaimResult {
    if row.kind != EventRow || row.state == Done then Nothing
    else if row.leaseUntil > now then Busy
    else Leased(row.(leaseOwner := owner, leaseUntil := now + DELIVER_LEASE))
  }

  function Release(row: Entry, owner: Owner): Entry {
    if row.leaseOwner == owner then row.(leaseUntil := 0) else row
  }

  function PurposeOf(first: bool, status: Status): Purpose {
    if status == Cancelled then BookingCancelled else if first then BookingCreated else BookingChanged
  }

  predicate Stale(record: Entry, snap: Snapshot) {
    record.fingerprint == Some(snap.version) || (record.changedAt != 0 && snap.changedAt < record.changedAt)
  }

  /** The transaction that accepts or drops one version of a booking; `None` is the busy error. */
  function Prepare(event: Entry, record: Entry, owner: Owner, snap: Snapshot, assistantOwned: bool,
                   activatedAt: Time, now: Time)
    : Option<(Entry, Entry)>
  {
    if event.leaseOwner != owner then None
    else if Stale(record, snap) then Some((event.(state := Done, outcome := DuplicateOrStale), record))
    else
      var first := record.kind == NoKind;
      var notice := Notice(event.event.id, snap, PurposeOf(first, snap.version.status), snap.version);
      var quiet :=
        || assistantOwned
        || (first && (snap.createdAt == 0 || snap.createdAt < activatedAt))
        || (snap.version.status != Cancelled && snap.version.start <= now);
      var told := event.(notice := Some(notice), state := Prepared);
      var event' := if quiet then told.(state := Done, outcome := ExistingOrAssistantBooking) else told;
      Some((event', BLANK.(kind := RecordRow, fingerprint := Some(snap.version), changedAt := snap.changedAt)))
  }

  datatype IntentResult = IntentResult(row: Entry, send: bool, alreadyRejected: bool, prior: Outcome)

  function Intent(row: Entry, route: Route): IntentResult {
    if row.state == Sending || row.state == Done then IntentResult(row, false, false, row.outcome)
    else if route in row.attempted then IntentResult(row, false, true, row.outcome)
    else
      IntentResult(
        row.(kind := DeliveryRow, state := Sending, outcome := Uncertain(route), attempted := row.attempted + [route]),
        true, false, row.outcome)
  }

  function OutcomeOf(route: Route, answer: Answer): Outcome {
    match answer
    case Taken => Accepted(route)
    case Refused => Rejected(route)
    case Unclear => Uncertain(route)
  }

  function Verdict(row: Entry, route: Route, answer: Answer): Entry {
    row.(state := if answer == Refused then RetryableRejection else Done, outcome := OutcomeOf(route, answer))
  }

  predicate WhatsAppOpen(outcome: Outcome) {
    outcome == Accepted(WhatsApp) || outcome == Uncertain(WhatsApp)
  }

  /** Reopens a notice whose WhatsApp message is known to have failed. */
  function Fallback(event: Entry, delivery: Entry): (Entry, Entry) {
    if delivery.report != ReceiptFailed || !WhatsAppOpen(delivery.outcome) then (event, delivery)
    else if event.state != Done && event.state != Prepared then (event, delivery)
    else if event.state == Done && !WhatsAppOpen(event.outcome) then (event, delivery)
    else
      (event.(state := Prepared, outcome := NoOutcome),
       delivery.(state := RetryableRejection, outcome := Rejected(WhatsApp)))
  }

  /** `None` is the busy error.  Only a finish that names its delivery row looks for a late failure. */
  function Finish(event: Entry, delivery: Entry, owner: Owner, outcome: Outcome, withDelivery: bool)
    : Option<(Entry, Entry)>
  {
    if event.leaseOwner != owner then None
    else
      var done := event.(state := Done, outcome := outcome);
      Some(if withDelivery then Fallback(done, delivery) else (done, delivery))
  }

  /** `None` is the busy error. */
  function Resume(event: Entry, delivery: Entry, now: Time): Option<(Entry, Entry)> {
    if event.leaseUntil > now then
      if delivery.report == ReceiptFailed && WhatsAppOpen(delivery.outcome) then None else Some((event, delivery))
    else Some(Fallback(event, delivery))
  }

  predicate IsReceipt(report: Report) {
    report in {ReceiptSent, ReceiptFailed, ReceiptDelivered, ReceiptRead}
  }

  predicate Outranked(stored: Report, report: Report) {
    || stored == ReceiptRead
    || (stored == ReceiptDelivered && report != ReceiptRead)
    || (stored == ReceiptFailed && report == ReceiptSent)
  }

  function Receipt(event: Entry, delivery: Entry, report: Report): (Entry, Entry) {
    if WhatsApp !in delivery.attempted || Outranked(delivery.report, report) then (event, delivery)
    else
      var noted := delivery.(report := report);
      if report == ReceiptFailed then Fallback(event, noted)
      else if (report == ReceiptDelivered || report == ReceiptRead)
              && noted.state == RetryableRejection && noted.outcome == Rejected(WhatsApp) then
        (if event.state == Prepared then event.(state := Done, outcome := Accepted(WhatsApp)) else event,
         noted.(state := Done, outcome := Accepted(WhatsApp)))
      else (event, noted)
  }

  predicate Reopenable(event: Entry, now: Time) {
    event.state == Done && event.outcome == NoLinkedMessenger && event.attempted == [] && event.leaseUntil <= now
  }

  function Reopen(event: Entry, now: Time): Entry {
    if Reopenable(event, now) then event.(state := Prepared, outcome := NoOutcome) else event
  }

  predicate AwaitingSms(row: Entry) {
    && row.kind == EventRow && row.state == Done
    && (row.outcome == Accepted(Sms) || row.outcome == Uncertain(Sms) || row.outcome == SmsAlertRetryable)
  }

  function SmsFailureOutcome(report: Report): Outcome {
    if report == SmsCancelled then CancelledSms else FailedSms
  }

  datatype SmsClaimResult = SmsClaimResult(row: Entry, claimed: bool, alertOnly: bool)

  function SmsClaim(row: Entry, owner: Owner, now: Time, alerts: bool): SmsClaimResult {
    if !AwaitingSms(row) || row.leaseUntil > now || row.nextLookupAt > now then SmsClaimResult(row, false, false)
    else
      var paced := row.(leaseOwner := owner, leaseUntil := now + SMS_LEASE, nextLookupAt := now + SMS_PACE);
      if row.outcome != SmsAlertRetryable then SmsClaimResult(paced, true, false)
      else
        var freed := paced.(leaseOwner := 0, leaseUntil := 0);
        if !alerts then SmsClaimResult(freed, false, false)
        else SmsClaimResult(freed.(outcome := SmsFailureOutcome(row.report), alertedAt := now), true, true)
  }

  /** An SMS status lookup: an error, a state the reader knows, or one it does not. */
  datatype Reading = Unreadable | Unrecognised | Known(report: Report)

  datatype SmsVerdictResult = SmsVerdictResult(row: Entry, alert: bool)

  /** `now` is the instant the check began; an unrecognised state discards every write. */
  function SmsVerdict(row: Entry, owner: Owner, now: Time, reading: Reading, alerts: bool): SmsVerdictResult {
    if row.leaseOwner != owner || !AwaitingSms(row) then SmsVerdictResult(row, false)
    else
      var freed := row.(leaseOwner := 0, leaseUntil := 0);
      var expired := row.event.receivedAt != 0 && now >= row.event.receivedAt + SMS_WATCH;
      match reading
      case Unreadable => SmsVerdictResult(if expired then freed.(outcome := UnconfirmedSms) else freed, false)
      case Unrecognised => SmsVerdictResult(row, false)
      case Known(report) =>
        if report in {SmsPending, SmsProcessed, SmsSent, SmsCancelling, SmsDelivered} then
          var seen := freed.(report := report);
          SmsVerdictResult(
            if !expired then seen
            else seen.(outcome := if report == SmsDelivered then DeliveredSms else UnconfirmedSms), false)
        else if report in {SmsFailed, SmsCancelled} then
          var lost := freed.(report := report, outcome := if report == SmsCancelled then CancelledSms else FailedSms);
          if lost.alertedAt == 0 && alerts then SmsVerdictResult(lost.(alertedAt := now), true)
          else SmsVerdictResult(lost, false)
        else SmsVerdictResult(row, false)
  }

  function AlertRefused(row: Entry, reservedAt: Time): Entry {
    if row.alertedAt != reservedAt || (row.outcome != FailedSms && row.outcome != CancelledSms) then row
    else row.(outcome := SmsAlertRetryable, alertedAt := 0)
  }
}
