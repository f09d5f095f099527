/**
 What each transaction of the outbox promises, told by what becomes of every part of its rows.
 */
module OutboxRules {
  import opened Options
  import opened OutboxRows

  // ---------------------------------------------------------------- events come in

  /** The first webhook makes the event, any later one changes nothing. */
  lemma FirstWebhookCounts(row: Entry, e: Event)
    ensures row.kind != NoKind ==> Ingest(row, e) == row
    ensures row.kind == NoKind ==>
      var r := Ingest(row, e);
      && r.kind == EventRow && r.state == Pending && r.event == e && r.notice == None && r.outcome == NoOutcome
      && r.leaseUntil == 0 && r.attempted == [] && r.nextLookupAt == 0 && r.alertedAt == 0
  {
  }

  /** So does the first handoff, and its notice is ready to be sent. */
  lemma FirstHandoffCounts(row: Entry, e: Event, notice: Notice)
    ensures row.kind != NoKind ==> QueueReminder(row, e, notice) == row
    ensures row.kind == NoKind ==>
      var r := QueueReminder(row, e, notice);
      && r.kind == EventRow && r.state == Prepared && r.event == e && r.notice == Some(notice)
      && r.outcome == NoOutcome && r.leaseUntil == 0 && r.attempted == [] && r.nextLookupAt == 0 && r.alertedAt == 0
  {
  }

  // ---------------------------------------------------------------- leases

  /** Nothing of the row changes but who holds it and until when. */
  predicate OnlyLeased(before: Entry, after: Entry) {
    after.(leaseOwner := before.leaseOwner, leaseUntil := before.leaseUntil) == before
  }

  predicate Unfinished(row: Entry) { row.kind == EventRow && row.state != Done }

  /** An unfinished event is leased for two minutes to whoever finds it free. */
  lemma LeasedExactly(row: Entry, owner: Owner, now: Time)
    ensures
      var r := Claim(row, owner, now);
      && (r.Nothing? <==> !Unfinished(row))
      && (r.Busy? <==> Unfinished(row) && now < row.leaseUntil)
      && (r.Leased? ==> OnlyLeased(row, r.row) && r.row.leaseOwner == owner && r.row.leaseUntil == now + 120)
  {
  }

  lemma ReleasedByItsHolder(row: Entry, owner: Owner)
    ensures
      var r := Release(row, owner);
      && OnlyLeased(row, r) && r.leaseOwner == row.leaseOwner
      && r.leaseUntil == if row.leaseOwner == owner then 0 else row.leaseUntil
  {
  }

  // ---------------------------------------------------------------- the version of a booking

  /** The version says something new: other details, and not from before what is on record. */
  predicate NewVersion(record: Entry, snap: Snapshot) {
    && record.fingerprint != Some(snap.version)
    && (record.changedAt == 0 || record.changedAt <= snap.changedAt)
  }

  /**
   The customer is told unless the assistant made the booking, it is older than the notifications
   or of unknown age when first seen, or the visit has started.
   */
  predicate Tells(record: Entry, snap: Snapshot, assistantOwned: bool, activatedAt: Time, now: Time) {
    && !assistantOwned
    && (record.kind == NoKind ==> snap.createdAt != 0 && activatedAt <= snap.createdAt)
    && (snap.version.status == Cancelled || now < snap.version.start)
  }

  lemma PreparedExactly(event: Entry, record: Entry, owner: Owner, snap: Snapshot, assistantOwned: bool,
                        activatedAt: Time, now: Time)
    ensures
      var r := Prepare(event, record, owner, snap, assistantOwned, activatedAt, now);
      && (r.Some? <==> event.leaseOwner == owner)
      && (r.Some? ==>
            var (e, rec) := r.value;
            && OnlyLeased(e, event.(state := e.state, outcome := e.outcome, notice := e.notice))
            && (if NewVersion(record, snap) then
                  && rec.kind == RecordRow && rec.fingerprint == Some(snap.version) && rec.changedAt == snap.changedAt
                  && e.notice.Some? && e.notice.value.id == event.event.id && e.notice.value.snapshot == snap
                  && e.notice.value.fingerprint == snap.version
                  && (if Tells(record, snap, assistantOwned, activatedAt, now)
                      then e.state == Prepared && e.outcome == event.outcome
                      else e.state == Done && e.outcome == ExistingOrAssistantBooking)
                else
                  && rec == record && e.notice == event.notice
                  && e.state == Done && e.outcome == DuplicateOrStale))
  {
  }

  /** Cancelled versions are announced as such, the first of a booking as new, any other as changed. */
  lemma PurposeExactly(event: Entry, record: Entry, owner: Owner, snap: Snapshot, assistantOwned: bool,
                       activatedAt: Time, now: Time)
    requires event.leaseOwner == owner && NewVersion(record, snap)
    ensures
      var r := Prepare(event, record, owner, snap, assistantOwned, activatedAt, now);
      && r.Some? && r.value.0.notice.Some?
      && var purpose := r.value.0.notice.value.purpose;
         && (purpose == BookingCancelled <==> snap.version.status == Cancelled)
         && (purpose == BookingCreated <==> snap.version.status != Cancelled && record.kind == NoKind)
         && (purpose == BookingChanged <==> snap.version.status != Cancelled && record.kind != NoKind)
  {
  }

  // ---------------------------------------------------------------- sending

  /** A route is reserved once, and only while no other send is open or done. */
  lemma ReservedExactly(row: Entry, route: Route)
    ensures
      var r := Intent(row, route);
      && (r.send <==> row.state !in {Sending, Done} && route !in row.attempted)
      && (r.alreadyRejected <==> row.state !in {Sending, Done} && route in row.attempted)
      && r.prior == row.outcome
      && (!r.send ==> r.row == row)
      && (r.send ==>
            && r.row.kind == DeliveryRow && r.row.state == Sending && r.row.outcome == Uncertain(route)
            && r.row.attempted == row.attempted + [route] && r.row.report == row.report)
  {
  }

  /** Only a definite refusal leaves the row open for a further route. */
  lemma VerdictExactly(row: Entry, route: Route, answer: Answer)
    ensures
      var r := Verdict(row, route, answer);
      && (r.state == RetryableRejection <==> answer == Refused) && (r.state == Done <==> answer != Refused)
      && (r.outcome == Accepted(route) <==> answer == Taken) && (r.outcome == Rejected(route) <==> answer == Refused)
      && (r.outcome == Uncertain(route) <==> answer == Unclear)
      && r.attempted == row.attempted && r.report == row.report && r.kind == row.kind
  {
  }

  /** A failed WhatsApp message that the rows still count as accepted or uncertain. */
  predicate Recoverable(event: Entry, delivery: Entry) {
    && delivery.report == ReceiptFailed && delivery.outcome in {Accepted(WhatsApp), Uncertain(WhatsApp)}
    && (event.state == Prepared
        || (event.state == Done && event.outcome in {Accepted(WhatsApp), Uncertain(WhatsApp)}))
  }

  lemma RecoveredExactly(event: Entry, delivery: Entry)
    ensures
      var (e, d) := Fallback(event, delivery);
      if Recoverable(event, delivery) then
        && e == event.(state := e.state, outcome := e.outcome) && e.state == Prepared && e.outcome == NoOutcome
        && d == delivery.(state := d.state, outcome := d.outcome)
        && d.state == RetryableRejection && d.outcome == Rejected(WhatsApp)
      else e == event && d == delivery
  {
  }

  /** Only the lease holder finishes, and only a finish that names its delivery row recovers a failed message. */
  lemma FinishedExactly(event: Entry, delivery: Entry, owner: Owner, outcome: Outcome, withDelivery: bool)
    ensures
      var r := Finish(event, delivery, owner, outcome, withDelivery);
      var done := event.(state := Done, outcome := outcome);
      && (r.Some? <==> event.leaseOwner == owner)
      && (r.Some? && withDelivery && Recoverable(done, delivery) ==>
            r.value.0.state == Prepared && r.value.1.outcome == Rejected(WhatsApp))
      && (r.Some? && !(withDelivery && Recoverable(done, delivery)) ==> r.value == (done, delivery))
  {
  }

  /** A task that finds a failed message recovers it, or comes back later while somebody holds the event. */
  lemma ResumedExactly(event: Entry, delivery: Entry, now: Time)
    ensures
      var r := Resume(event, delivery, now);
      var failed := delivery.report == ReceiptFailed && delivery.outcome in {Accepted(WhatsApp), Uncertain(WhatsApp)};
      && (r == None <==> now < event.leaseUntil && failed)
      && (r.Some? && now < event.leaseUntil ==> r.value == (event, delivery))
      && (event.leaseUntil <= now ==>
            r.Some? && (if Recoverable(event, delivery) then r.value.0.state == Prepared && r.value.1 != delivery
                        else r.value == (event, delivery)))
  {
  }

  // ---------------------------------------------------------------- receipts

  /** Read beats everything, delivered beats all but read, and failed beats sent. */
  predicate Beats(stored: Report, report: Report) {
    match stored
    case ReceiptRead => true
    case ReceiptDelivered => report != ReceiptRead
    case ReceiptFailed => report == ReceiptSent
    case _ => false
  }

  /** A receipt is stored unless a stronger one is; a failure recovers the notice, an arrival withdraws a recovery. */
  lemma ReceivedExactly(event: Entry, delivery: Entry, report: Report)
    requires IsReceipt(report)
    ensures
      var (e, d) := Receipt(event, delivery, report);
      var counts := WhatsApp in delivery.attempted && !Beats(delivery.report, report);
      var noted := delivery.(report := report);
      var withdrawn :=
        && report in {ReceiptDelivered, ReceiptRead}
        && delivery.state == RetryableRejection && delivery.outcome == Rejected(WhatsApp);
      && (!counts ==> e == event && d == delivery)
      && (counts ==> d.report == report && d.attempted == delivery.attempted)
      && (counts && report == ReceiptFailed && Recoverable(event, noted) ==>
            e.state == Prepared && d.state == RetryableRejection && d.outcome == Rejected(WhatsApp))
      && (counts && report == ReceiptFailed && !Recoverable(event, noted) ==> e == event && d == noted)
      && (counts && withdrawn ==>
            && d.state == Done && d.outcome == Accepted(WhatsApp)
            && (if event.state == Prepared then e.state == Done && e.outcome == Accepted(WhatsApp) else e == event))
      && (counts && report != ReceiptFailed && !withdrawn ==> e == event && d == noted)
  {
  }

  /** Only a finished event that found no messenger, was never attempted and is free is looked at again. */
  lemma ReopenedExactly(event: Entry, now: Time)
    ensures
      var open :=
        && event.state == Done && event.outcome == NoLinkedMessenger && event.attempted == []
        && event.leaseUntil <= now;
      && (Reopenable(event, now) <==> open)
      && Reopen(event, now) == if open then event.(state := Prepared, outcome := NoOutcome) else event
  {
  }

  // ---------------------------------------------------------------- SMS checks and staff alerts

  /** An SMS whose fate is open, or whose failure staff could not be told yet. */
  predicate Watched(row: Entry) {
    && row.kind == EventRow && row.state == Done
    && row.outcome in {Accepted(Sms), Uncertain(Sms), SmsAlertRetryable}
  }

  /** A check is leased for a minute and not repeated for five; a retried alert is reserved instead. */
  lemma SmsCheckedExactly(row: Entry, owner: Owner, now: Time, alerts: bool)
    ensures
      var r := SmsClaim(row, owner, now, alerts);
      var due := Watched(row) && row.leaseUntil <= now && row.nextLookupAt <= now;
      var retry := row.outcome == SmsAlertRetryable;
      && (r.claimed <==> due && (retry ==> alerts)) && (r.alertOnly <==> due && retry && alerts)
      && (!due ==> r.row == row)
      && (due ==> r.row.nextLookupAt == now + 300)
      && (due && !retry ==>
            && r.row.leaseOwner == owner && r.row.leaseUntil == now + 60
            && r.row.outcome == row.outcome && r.row.alertedAt == row.alertedAt)
      && (due && retry ==>
            && r.row.leaseOwner == 0 && r.row.leaseUntil == 0
            && (if alerts then
                  && r.row.alertedAt == now
                  && r.row.outcome == if row.report == SmsCancelled then CancelledSms else FailedSms
                else r.row.alertedAt == row.alertedAt && r.row.outcome == row.outcome))
      && r.row.state == row.state && r.row.report == row.report && r.row.event == row.event
  {
  }

  /** The watch over an SMS ends a day after its event came in. */
  predicate WatchIsOver(row: Entry, now: Time) {
    row.event.receivedAt != 0 && row.event.receivedAt + 86400 <= now
  }

  /** What a reading makes of the outcome. */
  lemma SmsOutcomeExactly(row: Entry, owner: Owner, now: Time, reading: Reading, alerts: bool)
    requires row.leaseOwner == owner && Watched(row)
    ensures
      var r := SmsVerdict(row, owner, now, reading, alerts).row;
      && (reading == Known(SmsFailed) ==> r.outcome == FailedSms)
      && (reading == Known(SmsCancelled) ==> r.outcome == CancelledSms)
      && (reading == Known(SmsDelivered) ==> r.outcome == if WatchIsOver(row, now) then DeliveredSms else row.outcome)
      && (reading == Unreadable
          || reading in {Known(SmsPending), Known(SmsProcessed), Known(SmsSent), Known(SmsCancelling)} ==>
            r.outcome == if WatchIsOver(row, now) then UnconfirmedSms else row.outcome)
  {
  }

  /** A readable state is stored and ends the lease; a failure reserves one alert, and nothing else does. */
  lemma SmsReadExactly(row: Entry, owner: Owner, now: Time, reading: Reading, alerts: bool)
    ensures
      var r := SmsVerdict(row, owner, now, reading, alerts);
      var known := reading.Known? && reading.report in
        {SmsPending, SmsProcessed, SmsSent, SmsCancelling, SmsDelivered, SmsFailed, SmsCancelled};
      var counts := row.leaseOwner == owner && Watched(row) && (known || reading == Unreadable);
      && (!counts ==> r.row == row)
      && (counts ==> r.row.leaseOwner == 0 && r.row.leaseUntil == 0 && r.row.state == row.state)
      && (counts ==> r.row.report == if known then reading.report else row.report)
      && (r.alert <==>
            counts && known && reading.report in {SmsFailed, SmsCancelled} && row.alertedAt == 0 && alerts)
      && r.row.alertedAt == if r.alert then now else row.alertedAt
  {
  }

  /** A refused alert frees exactly its own reservation, so that staff are told later. */
  lemma AlertFreedExactly(row: Entry, reservedAt: Time)
    ensures
      var r := AlertRefused(row, reservedAt);
      if row.alertedAt == reservedAt && row.outcome in {FailedSms, CancelledSms}
      then r.outcome == SmsAlertRetryable && r.alertedAt == 0 && r == row.(outcome := r.outcome, alertedAt := 0)
      else r == row
  {
  }
}
