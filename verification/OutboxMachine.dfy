/**
 Every worker, receipt and recovery job of one notice, interleaved.

 A `Cell` is one event with its delivery row and everybody working on it.  A step that is
 not enabled changes nothing, so a run is any list of steps, and a worker that takes no
 further step has crashed.
 */
module OutboxMachine {
  import opened Options
  import opened OutboxRows

  /** Where a worker stands between two transactions; `rest` starts with the current target. */
  datatype Pc =
    | AtResume
    | AtBegin
    | AtClaim
    | AtPrepare
    | AtPlan
    | AtIntent(rest: seq<Route>)
    | AtSend(rest: seq<Route>)
    | AtVerdict(rest: seq<Route>, answer: Answer)
    | AtFinish(outcome: Outcome, withDelivery: bool)
    | AtRelease
    | AtSmsClaim
    | AtSmsRead
    | AtAlert
    | AtAlertRefused
    | Gone

  /**
   `began` is the instant the worker last captured; `notice` is the copy it will send; `read` is kept
   for the statements below.
   */
  datatype Worker = Worker(pc: Pc, began: Time, notice: Option<Notice>, read: Option<Read>)

  /** The booking as it was read right before planning. */
  datatype Read = Read(latest: Snapshot, at: Time)

  datatype Call = Call(route: Route, notice: Notice, read: Read)

  /** What happened so far; no transaction reads it. */
  datatype History = History(
    prepared: seq<Notice>,          // notices stored on the event
    intents: map<Route, Owner>,     // who committed the intent for a route
    calls: seq<Call>,               // provider calls
    refused: set<Route>,            // refused by the provider, or reported failed
    receipts: seq<Report>,          // WhatsApp receipts since WhatsApp was attempted
    alerts: seq<Answer>,            // staff alerts
    alerter: Owner)                 // who reserved the last staff alert

  datatype Shared = Shared(event: Entry, delivery: Entry, history: History)

  datatype Cell = Cell(shared: Shared, workers: map<Owner, Worker>)

  const NOTHING: History := History([], map[], [], {}, [], [], 0)
  const EMPTY: Cell := Cell(Shared(BLANK, BLANK, NOTHING), map[])

  datatype Plan = NoPhone | Targets(routes: seq<Route>)

  /** One move of one worker.  Everything read outside the store is a parameter. */
  datatype Action =
    | DoResume
    | DoBegin
    | DoClaim
    | DoMissing
    | DoPrepare(snap: Snapshot, assistantOwned: bool, activatedAt: Time)
    | DoPlan(latest: Snapshot, plan: Plan)
    | DoIntent
    | DoSend(answer: Answer)
    | DoVerdict
    | DoFinish
    | DoRelease
    | DoFail
    | DoCrash
    | DoSmsClaim(alerts: bool)
    | DoSmsRead(reading: Reading, alerts: bool)
    | DoAlert(answer: Answer)
    | DoAlertRefused

  datatype Step =
    | IngestStep(e: Event)
    | QueueReminderStep(e: Event, notice: Notice)
    | ReceiptStep(report: Report)
    | ReopenStep
    | StartStep(w: Owner, sms: bool)
    | WorkerStep(w: Owner, action: Action)

  /** A worker that holds, or once held, the delivery lease and has not released it. */
  predicate Leasing(pc: Pc) {
    pc.AtPrepare? || pc.AtPlan? || pc.AtIntent? || pc.AtSend? || pc.AtVerdict? || pc.AtFinish? || pc.AtRelease?
  }

  /** The checks made right before sending; whom the routes belong to is decided elsewhere. */
  function Planned(event: Event, now: Time, notice: Notice, latest: Snapshot, plan: Plan): Pc {
    if latest.version != notice.fingerprint then AtFinish(Superseded, false)
    else if latest.version.status != Cancelled && latest.version.start <= now then AtFinish(AppointmentStarted, false)
    else if notice.purpose == BookingReminder
            && (now > event.receivedAt + REMINDER_GRACE || latest.version.status == Cancelled) then
      AtFinish(ReminderExpired, false)
    else match plan
      case NoPhone => AtFinish(NoValidPhone, false)
      case Targets(routes) => if routes == [] then AtFinish(NoLinkedMessenger, false) else AtIntent(routes)
  }

  /** The new shared rows, the worker's new state and the record row. */
  datatype Effect = Effect(shared: Shared, worker: Worker, record: Entry)

  predicate Enabled(x: Worker, action: Action) {
    match action
    case DoResume => x.pc == AtResume
    case DoBegin => x.pc == AtBegin
    case DoClaim => x.pc == AtClaim
    case DoMissing => x.pc == AtPrepare || x.pc == AtPlan
    case DoPrepare(_, _, _) => x.pc == AtPrepare
    case DoPlan(_, _) => x.pc == AtPlan && x.notice != None
    case DoIntent => x.pc.AtIntent? && x.pc.rest != []
    case DoSend(_) => x.pc.AtSend? && x.pc.rest != [] && x.notice != None && x.read != None
    case DoVerdict => x.pc.AtVerdict? && x.pc.rest != []
    case DoFinish => x.pc.AtFinish?
    case DoRelease => x.pc == AtRelease
    case DoFail => Leasing(x.pc)
    case DoCrash => true
    case DoSmsClaim(_) => x.pc == AtSmsClaim
    case DoSmsRead(_, _) => x.pc == AtSmsRead
    case DoAlert(_) => x.pc == AtAlert
    case DoAlertRefused => x.pc == AtAlertRefused
  }

  function Act(s: Shared, w: Owner, x: Worker, now: Time, rec: Entry, action: Action): Effect
    requires Enabled(x, action)
  {
    var h := s.history;
    match action
    case DoResume =>
      (match Resume(s.event, s.delivery, now)
       case None => Effect(s, x.(pc := Gone), rec)
       case Some((e, d)) => Effect(s.(event := e, delivery := d), x.(pc := AtBegin), rec))
    case DoBegin => Effect(s, x.(pc := AtClaim, began := now), rec)
    case DoClaim =>
      (match Claim(s.event, w, x.began)
       case Leased(row) =>
         var next := if row.state == Pending then AtPrepare else AtPlan;
         Effect(s.(event := row), x.(pc := next, notice := row.notice), rec)
       case _ => Effect(s, x.(pc := Gone), rec))
    case DoMissing => Effect(s, x.(pc := AtFinish(RecordUnavailable, false)), rec)
    case DoPrepare(snap, assistantOwned, activatedAt) =>
      (match Prepare(s.event, rec, w, snap, assistantOwned, activatedAt, x.began)
       case None => Effect(s, x.(pc := AtRelease), rec)
       case Some((e, r)) =>
         var h' := if Stale(rec, snap) then h else h.(prepared := h.prepared + [e.notice.value]);
         var next := if e.state == Done then AtRelease else AtPlan;
         Effect(s.(event := e, history := h'), x.(pc := next, notice := e.notice), r))
    case DoPlan(latest, plan) =>
      var next := Planned(s.event.event, now, x.notice.value, latest, plan);
      Effect(s, x.(pc := next, read := Some(Read(latest, now))), rec)
    case DoIntent =>
      var rest := x.pc.rest;
      var r := Intent(s.delivery, rest[0]);
      if r.send then
        Effect(s.(delivery := r.row, history := h.(intents := h.intents[rest[0] := w])), x.(pc := AtSend(rest)), rec)
      else if r.alreadyRejected && |rest| > 1 then Effect(s, x.(pc := AtIntent(rest[1..])), rec)
      else
        var outcome := if r.prior == NoOutcome then AlreadyAttemptedOrUncertain else r.prior;
        Effect(s, x.(pc := AtFinish(outcome, true)), rec)
    case DoSend(answer) =>
      var rest := x.pc.rest;
      var calls := h.calls + [Call(rest[0], x.notice.value, x.read.value)];
      var refused := h.refused + if answer == Refused then {rest[0]} else {};
      Effect(s.(history := h.(calls := calls, refused := refused)), x.(pc := AtVerdict(rest, answer)), rec)
    case DoVerdict =>
      var rest, answer := x.pc.rest, x.pc.answer;
      var next := if answer != Refused || |rest| == 1 then AtFinish(OutcomeOf(rest[0], answer), true)
                  else AtIntent(rest[1..]);
      Effect(s.(delivery := Verdict(s.delivery, rest[0], answer)), x.(pc := next), rec)
    case DoFinish =>
      (match Finish(s.event, s.delivery, w, x.pc.outcome, x.pc.withDelivery)
       case None => Effect(s, x.(pc := AtRelease), rec)
       case Some((e, d)) => Effect(s.(event := e, delivery := d), x.(pc := AtRelease), rec))
    case DoRelease => Effect(s.(event := Release(s.event, w)), x.(pc := Gone), rec)
    case DoFail => Effect(s, x.(pc := AtRelease), rec)
    case DoCrash => Effect(s, x.(pc := Gone), rec)
    case DoSmsClaim(alerts) =>
      var r := SmsClaim(s.event, w, x.began, alerts);
      var next := if !r.claimed then Gone else if r.alertOnly then AtAlert else AtSmsRead;
      Effect(s.(event := r.row, history := if r.alertOnly then h.(alerter := w) else h), x.(pc := next), rec)
    case DoSmsRead(reading, alerts) =>
      var r := SmsVerdict(s.event, w, x.began, reading, alerts);
      var next := if r.alert then AtAlert else Gone;
      Effect(s.(event := r.row, history := if r.alert then h.(alerter := w) else h), x.(pc := next), rec)
    case DoAlert(answer) =>
      var next := if answer == Refused then AtAlertRefused else Gone;
      Effect(s.(history := h.(alerts := h.alerts + [answer])), x.(pc := next), rec)
    case DoAlertRefused => Effect(s.(event := AlertRefused(s.event, x.began)), x.(pc := Gone), rec)
  }

  /** A signed receipt that names this notice and its phone. */
  function Received(s: Shared, report: Report): Shared {
    if !IsReceipt(report) || s.event.kind != EventRow || s.event.notice == None then s
    else
      var (e, d) := Receipt(s.event, s.delivery, report);
      var h := if WhatsApp !in s.delivery.attempted then s.history
               else s.history.(
                 receipts := s.history.receipts + [report],
                 refused := s.history.refused + if d.report == ReceiptFailed then {WhatsApp} else {});
      Shared(e, d, h)
  }

  /** The steps nobody has to hold a lease for. */
  function Outside(s: Shared, now: Time, step: Step): Shared {
    match step
    case IngestStep(e) => s.(event := Ingest(s.event, e))
    case QueueReminderStep(e, notice) =>
      s.(event := QueueReminder(s.event, e, notice),
         history := if s.event.kind == NoKind then s.history.(prepared := s.history.prepared + [notice]) else s.history)
    case ReceiptStep(report) => Received(s, report)
    case ReopenStep => s.(event := Reopen(s.event, now))
    case _ => s
  }

  function Do(c: Cell, rec: Entry, now: Time, step: Step): (Cell, Entry) {
    match step
    case StartStep(w, sms) =>
      (if w == 0 || w in c.workers || (!sms && c.shared.event.kind != EventRow) then c
       else c.(workers := c.workers[w := Worker(if sms then AtSmsClaim else AtResume, now, None, None)]), rec)
    case WorkerStep(w, action) =>
      if w !in c.workers || !Enabled(c.workers[w], action) then (c, rec)
      else
        var r := Act(c.shared, w, c.workers[w], now, rec, action);
        (Cell(r.shared, c.workers[w := r.worker]), r.record)
    case _ => (c.(shared := Outside(c.shared, now, step)), rec)
  }
}
