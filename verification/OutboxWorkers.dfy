/**
 What one worker of the outbox does: its steps one by one, and its whole delivery when nobody
 comes between.
 */
module OutboxWorkers {
  import opened Options
  import opened OutboxRows
  import opened OutboxMachine
  import opened OutboxRepository

  // ---------------------------------------------------------------- step by step

  /**
   Where a worker stands decides its move; it may also die at any time, and give up while it may hold the
   lease.
   */
  lemma MovesInOrder(x: Worker, action: Action)
    ensures
      Enabled(x, action) <==>
        || action.DoCrash?
        || match x.pc
           case AtResume => action.DoResume?
           case AtBegin => action.DoBegin?
           case AtClaim => action.DoClaim?
           case AtPrepare => action.DoPrepare? || action.DoMissing? || action.DoFail?
           case AtPlan => (action.DoPlan? && x.notice.Some?) || action.DoMissing? || action.DoFail?
           case AtIntent(rest) => (action.DoIntent? && rest != []) || action.DoFail?
           case AtSend(rest) => (action.DoSend? && rest != [] && x.notice.Some? && x.read.Some?) || action.DoFail?
           case AtVerdict(rest, _) => (action.DoVerdict? && rest != []) || action.DoFail?
           case AtFinish(_, _) => action.DoFinish? || action.DoFail?
           case AtRelease => action.DoRelease? || action.DoFail?
           case AtSmsClaim => action.DoSmsClaim?
           case AtSmsRead => action.DoSmsRead?
           case AtAlert => action.DoAlert?
           case AtAlertRefused => action.DoAlertRefused?
           case Gone => false
  {
  }

  /** The step is one transaction on the rows, and writes nothing else. */
  lemma WritesExactly(s: Shared, w: Owner, x: Worker, now: Time, rec: Entry, action: Action)
    requires Enabled(x, action)
    ensures
      var r := Act(s, w, x, now, rec, action);
      var e, d := r.shared.event, r.shared.delivery;
      match action
      case DoResume =>
        (match Resume(s.event, s.delivery, now)
         case None => e == s.event && d == s.delivery
         case Some(rows) => rows == (e, d))
      case DoClaim =>
        (match Claim(s.event, w, x.began)
         case Leased(row) => e == row && d == s.delivery
         case _ => e == s.event && d == s.delivery)
      case DoPrepare(snap, owned, since) =>
        (match Prepare(s.event, rec, w, snap, owned, since, x.began)
         case None => e == s.event && d == s.delivery
         case Some((event, record)) => e == event && d == s.delivery && r.record == record)
      case DoIntent => e == s.event && d == Intent(s.delivery, x.pc.rest[0]).row
      case DoVerdict => e == s.event && d == Verdict(s.delivery, x.pc.rest[0], x.pc.answer)
      case DoFinish =>
        (match Finish(s.event, s.delivery, w, x.pc.outcome, x.pc.withDelivery)
         case None => e == s.event && d == s.delivery
         case Some(rows) => rows == (e, d))
      case DoRelease => e == Release(s.event, w) && d == s.delivery
      case DoSmsClaim(alerts) => e == SmsClaim(s.event, w, x.began, alerts).row && d == s.delivery
      case DoSmsRead(reading, alerts) => e == SmsVerdict(s.event, w, x.began, reading, alerts).row && d == s.delivery
      case DoAlertRefused => e == AlertRefused(s.event, x.began) && d == s.delivery
      case _ => e == s.event && d == s.delivery
  {
  }

  lemma RecordsOnlyPrepared(s: Shared, w: Owner, x: Worker, now: Time, rec: Entry, action: Action)
    requires Enabled(x, action) && !action.DoPrepare?
    ensures
      var r := Act(s, w, x, now, rec, action);
      r.record == rec && r.shared.history.prepared == s.history.prepared
  {
  }

  /** Resuming, claiming and preparing: a busy or finished event ends the delivery, a lost lease only releases. */
  lemma StartsExactly(s: Shared, w: Owner, x: Worker, now: Time, rec: Entry, action: Action)
    requires Enabled(x, action) && (action.DoResume? || action.DoBegin? || action.DoClaim? || action.DoPrepare?)
    ensures
      var y := Act(s, w, x, now, rec, action).worker;
      match action
      case DoResume => y == x.(pc := if Resume(s.event, s.delivery, now) == None then Gone else AtBegin)
      case DoBegin => y == x.(pc := AtClaim, began := now)
      case DoClaim =>
        (match Claim(s.event, w, x.began)
         case Leased(row) =>
           y.notice == row.notice && y.began == x.began && y.pc == if row.state == Pending then AtPrepare else AtPlan
         case _ => y == x.(pc := Gone))
      case DoPrepare(snap, owned, since) =>
        (match Prepare(s.event, rec, w, snap, owned, since, x.began)
         case None => y == x.(pc := AtRelease)
         case Some((e, _)) =>
           y.notice == e.notice && y.began == x.began && y.pc == if e.state == Done then AtRelease else AtPlan)
  {
  }

  /** The last look before sending, in the order of the checks. */
  lemma PlannedExactly(event: Event, now: Time, notice: Notice, latest: Snapshot, plan: Plan)
    ensures
      var next := Planned(event, now, notice, latest, plan);
      var v := latest.version;
      var current := v == notice.fingerprint;
      var ahead := v.status == Cancelled || now < v.start;
      var late := notice.purpose == BookingReminder && (event.receivedAt + 900 < now || v.status == Cancelled);
      && (!current <==> next == AtFinish(Superseded, false))
      && (current && !ahead <==> next == AtFinish(AppointmentStarted, false))
      && (current && ahead && late <==> next == AtFinish(ReminderExpired, false))
      && (current && ahead && !late && plan == NoPhone <==> next == AtFinish(NoValidPhone, false))
      && (current && ahead && !late && plan == Targets([]) <==> next == AtFinish(NoLinkedMessenger, false))
      && (current && ahead && !late && plan.Targets? && plan.routes != [] ==> next == AtIntent(plan.routes))
  {
  }

  /** Planning, finishing, releasing and giving up. */
  lemma EndsExactly(s: Shared, w: Owner, x: Worker, now: Time, rec: Entry, action: Action)
    requires Enabled(x, action)
    requires action.DoMissing? || action.DoPlan? || action.DoFinish? || action.DoRelease? || action.DoFail?
      || action.DoCrash?
    ensures
      var y := Act(s, w, x, now, rec, action).worker;
      match action
      case DoMissing => y == x.(pc := AtFinish(RecordUnavailable, false))
      case DoPlan(latest, plan) =>
        y == x.(pc := Planned(s.event.event, now, x.notice.value, latest, plan), read := Some(Read(latest, now)))
      case DoFinish => y == x.(pc := AtRelease)
      case DoFail => y == x.(pc := AtRelease)
      case _ => y == x.(pc := Gone)
  {
  }

  /**
   An SMS check reads the status or sends the alert it reserved; a refused alert is freed, any other ends the
   check.
   */
  lemma ChecksSmsExactly(s: Shared, w: Owner, x: Worker, now: Time, rec: Entry, action: Action)
    requires Enabled(x, action)
    requires action.DoSmsClaim? || action.DoSmsRead? || action.DoAlert? || action.DoAlertRefused?
    ensures
      var r := Act(s, w, x, now, rec, action);
      var pc := r.worker.pc;
      && r.worker == x.(pc := pc)
      && r.shared.history.alerts == s.history.alerts + (if action.DoAlert? then [action.answer] else [])
      && match action
         case DoSmsClaim(alerts) =>
           var c := SmsClaim(s.event, w, x.began, alerts);
           pc == if !c.claimed then Gone else if c.alertOnly then AtAlert else AtSmsRead
         case DoSmsRead(reading, alerts) =>
           pc == if SmsVerdict(s.event, w, x.began, reading, alerts).alert then AtAlert else Gone
         case DoAlert(answer) => pc == if answer == Refused then AtAlertRefused else Gone
         case DoAlertRefused => pc == Gone
  {
  }

  /** A task starts once under its identity: an SMS check for any event, a delivery for one that is there. */
  lemma StartedExactly(c: Cell, rec: Entry, now: Time, w: Owner, sms: bool)
    ensures
      var d := Do(c, rec, now, StartStep(w, sms)).0;
      if w != 0 && w !in c.workers && (sms || c.shared.event.kind == EventRow)
      then d == c.(workers := c.workers[w := Worker(if sms then AtSmsClaim else AtResume, now, None, None)])
      else d == c
  {
  }

  /**
   Webhooks, handoffs, receipts and recovery write their own row only; a receipt has to name the notice it is
   about.
   */
  lemma OutsideExactly(s: Shared, now: Time, step: Step)
    requires !step.StartStep? && !step.WorkerStep?
    ensures
      var u := Outside(s, now, step);
      match step
      case IngestStep(e) => u.event == Ingest(s.event, e) && u.delivery == s.delivery
      case QueueReminderStep(e, notice) => u.event == QueueReminder(s.event, e, notice) && u.delivery == s.delivery
      case ReceiptStep(report) =>
        if
          && report in {ReceiptSent, ReceiptFailed, ReceiptDelivered, ReceiptRead}
          && s.event.kind == EventRow && s.event.notice.Some?
        then (u.event, u.delivery) == Receipt(s.event, s.delivery, report) else u == s
      case ReopenStep => u.event == Reopen(s.event, now) && u.delivery == s.delivery
  {
  }

  // ---------------------------------------------------------------- a whole delivery, undisturbed

  function StepsLeft(pc: Pc): nat {
    match pc
    case AtIntent(rest) => 3 * |rest|
    case AtSend(rest) => if rest == [] then 0 else 3 * |rest| - 1
    case AtVerdict(rest, _) => if rest == [] then 0 else 3 * |rest| - 2
    case _ => 0
  }

  /** From the planned targets to the end of the loop. */
  function Deliver(s: Shared, w: Owner, x: Worker, now: Time, rec: Entry, answers: Answers): (Shared, Worker)
    requires x.notice.Some? && x.read.Some?
    decreases StepsLeft(x.pc)
  {
    if StepsLeft(x.pc) == 0 then (s, x)
    else
      var action := if x.pc.AtIntent? then DoIntent
                    else if x.pc.AtSend? then DoSend(answers(x.pc.rest[0])) else DoVerdict;
      var r := Act(s, w, x, now, rec, action);
      Deliver(r.shared, w, r.worker, now, rec, answers)
  }

  /** These calls were made with the worker's notice, and the worker finishes with what the row then shows. */
  ghost predicate Made(s: Shared, t: Shared, x: Worker, z: Worker, calls: seq<Route>, answers: Answers)
    requires x.notice.Some? && x.read.Some?
  {
    && t.event == s.event && t.delivery.attempted == s.delivery.attempted + calls
    && t.history.calls == s.history.calls
         + seq(|calls|, i requires 0 <= i < |calls| => Call(calls[i], x.notice.value, x.read.value))
    && (calls == [] ==> t.delivery == s.delivery)
    && (calls != [] ==>
          t.delivery.outcome == OutcomeOf(calls[|calls| - 1], answers(calls[|calls| - 1])))
    && z.pc == AtFinish(FinishOutcome(t.delivery), true) && z.began == x.began
  }

  /** The three steps of one new target. */
  lemma OneCall(s: Shared, w: Owner, x: Worker, now: Time, rec: Entry, answers: Answers)
    requires x.notice.Some? && x.read.Some? && x.pc.AtIntent? && x.pc.rest != []
    requires s.delivery.state !in {Sending, Done} && x.pc.rest[0] !in s.delivery.attempted
    ensures
      var route, answer := x.pc.rest[0], answers(x.pc.rest[0]);
      var t, y := AfterCall(s, w, x, answer), x.(pc := AfterAnswer(x.pc.rest, answer));
      Deliver(s, w, x, now, rec, answers) == Deliver(t, w, y, now, rec, answers)
  {
    var rest := x.pc.rest;
    var answer := answers(rest[0]);
    var one := Act(s, w, x, now, rec, DoIntent);
    var two := Act(one.shared, w, one.worker, now, rec, DoSend(answer));
    var three := Act(two.shared, w, two.worker, now, rec, DoVerdict);
    assert one.worker == x.(pc := AtSend(rest)) && two.worker == x.(pc := AtVerdict(rest, answer));
    assert Deliver(one.shared, w, one.worker, now, rec, answers) ==
           Deliver(two.shared, w, two.worker, now, rec, answers);
    assert Deliver(two.shared, w, two.worker, now, rec, answers) ==
           Deliver(three.shared, w, three.worker, now, rec, answers);
    assert three.shared == AfterCall(s, w, x, answer);
  }

  /** The rows after intent, call and verdict. */
  function AfterCall(s: Shared, w: Owner, x: Worker, answer: Answer): Shared
    requires x.notice.Some? && x.read.Some? && x.pc.AtIntent? && x.pc.rest != []
  {
    var route := x.pc.rest[0];
    var h := s.history;
    Shared(s.event, Verdict(Intent(s.delivery, route).row, route, answer),
           h.(intents := h.intents[route := w], calls := h.calls + [Call(route, x.notice.value, x.read.value)],
              refused := h.refused + if answer == Refused then {route} else {}))
  }

  /** Only a refusal leads to the next target, if there is one. */
  function AfterAnswer(rest: seq<Route>, answer: Answer): Pc
    requires rest != []
  {
    if answer == Refused && |rest| > 1 then AtIntent(rest[1..]) else AtFinish(OutcomeOf(rest[0], answer), true)
  }

  lemma PassedOver(s: Shared, w: Owner, x: Worker, now: Time, rec: Entry, answers: Answers)
    requires x.notice.Some? && x.read.Some? && x.pc.AtIntent? && x.pc.rest != []
    requires s.delivery.state in {Sending, Done} || x.pc.rest[0] in s.delivery.attempted
    ensures
      var next := if s.delivery.state !in {Sending, Done} && |x.pc.rest| > 1 then AtIntent(x.pc.rest[1..])
                  else AtFinish(FinishOutcome(s.delivery), true);
      Deliver(s, w, x, now, rec, answers) == Deliver(s, w, x.(pc := next), now, rec, answers)
  {
  }

  lemma MadeOneMore(s: Shared, t: Shared, u: Shared, x: Worker, y: Worker, z: Worker, route: Route, calls: seq<Route>,
                    answers: Answers)
    requires x.notice.Some? && x.read.Some? && y == x.(pc := y.pc)
    requires t.event == s.event && t.delivery.attempted == s.delivery.attempted + [route]
    requires t.delivery.outcome == OutcomeOf(route, answers(route))
    requires t.history.calls == s.history.calls + [Call(route, x.notice.value, x.read.value)]
    requires Made(t, u, y, z, calls, answers)
    ensures Made(s, u, x, z, [route] + calls, answers)
  {
    var all := [route] + calls;
    assert seq(|all|, i requires 0 <= i < |all| => Call(all[i], x.notice.value, x.read.value)) ==
           [Call(route, x.notice.value, x.read.value)]
           + seq(|calls|, i requires 0 <= i < |calls| => Call(calls[i], x.notice.value, x.read.value));
  }

  lemma NothingMore(s: Shared, x: Worker, z: Worker, answers: Answers)
    requires x.notice.Some? && x.read.Some?
    requires z.pc == AtFinish(FinishOutcome(s.delivery), true) && z.began == x.began
    ensures Made(s, s, x, z, [], answers)
  {
  }

  /** A new target, and what is delivered after it. */
  lemma DeliversNew(s: Shared, w: Owner, x: Worker, now: Time, rec: Entry, targets: seq<Route>, i: nat,
                    answers: Answers)
    requires x.notice.Some? && x.read.Some? && i < |targets| && x.pc == AtIntent(targets[i..])
    requires s.delivery.state !in {Sending, Done} && targets[i] !in s.delivery.attempted
    requires
      var answer := answers(targets[i]);
      var t, y := AfterCall(s, w, x, answer), x.(pc := AfterAnswer(targets[i..], answer));
      var (u, z) := Deliver(t, w, y, now, rec, answers);
      Made(t, u, y, z, if answer == Refused then Tried(t.delivery.attempted, targets, i + 1, answers) else [], answers)
    ensures
      var (t, z) := Deliver(s, w, x, now, rec, answers);
      Made(s, t, x, z, Tried(s.delivery.attempted, targets, i, answers), answers)
  {
    var answer := answers(targets[i]);
    var t, y := AfterCall(s, w, x, answer), x.(pc := AfterAnswer(targets[i..], answer));
    var (u, z) := Deliver(t, w, y, now, rec, answers);
    var calls := if answer == Refused then Tried(t.delivery.attempted, targets, i + 1, answers) else [];
    OneCall(s, w, x, now, rec, answers);
    MadeOneMore(s, t, u, x, y, z, targets[i], calls, answers);
    assert [targets[i]] + [] == [targets[i]];
  }

  lemma {:induction false} DeliversFrom(s: Shared, w: Owner, x: Worker, now: Time, rec: Entry, targets: seq<Route>,
                                        i: nat, answers: Answers)
    requires x.notice.Some? && x.read.Some? && i < |targets| && x.pc == AtIntent(targets[i..])
    requires s.delivery.state !in {Sending, Done}
    ensures
      var (t, z) := Deliver(s, w, x, now, rec, answers);
      Made(s, t, x, z, Tried(s.delivery.attempted, targets, i, answers), answers)
    decreases |targets| - i
  {
    var rest := targets[i..];
    assert rest[0] == targets[i] && rest[1..] == targets[i + 1..];
    if targets[i] in s.delivery.attempted {
      PassedOver(s, w, x, now, rec, answers);
      if i + 1 < |targets| {
        DeliversFrom(s, w, x.(pc := AtIntent(targets[i + 1..])), now, rec, targets, i + 1, answers);
      } else {
        NothingMore(s, x, x.(pc := AtFinish(FinishOutcome(s.delivery), true)), answers);
      }
    } else {
      var answer := answers(targets[i]);
      var t, y := AfterCall(s, w, x, answer), x.(pc := AfterAnswer(rest, answer));
      if answer == Refused && i + 1 < |targets| {
        DeliversFrom(t, w, y, now, rec, targets, i + 1, answers);
      } else {
        NothingMore(t, y, y, answers);
      }
      DeliversNew(s, w, x, now, rec, targets, i, answers);
    }
  }

  /**
   The steps of an undisturbed worker make exactly the calls of the loop over targets, and end with the
   outcome that loop finishes with.
   */
  lemma DeliversExpected(s: Shared, w: Owner, x: Worker, now: Time, rec: Entry, targets: seq<Route>, answers: Answers)
    requires x.notice.Some? && x.read.Some? && targets != [] && x.pc == AtIntent(targets)
    ensures
      var (t, z) := Deliver(s, w, x, now, rec, answers);
      Made(s, t, x, z, Expected(s.delivery, targets, answers), answers)
  {
    assert targets[0..] == targets;
    if s.delivery.state in {Sending, Done} {
      PassedOver(s, w, x, now, rec, answers);
      NothingMore(s, x, x.(pc := AtFinish(FinishOutcome(s.delivery), true)), answers);
    } else {
      DeliversFrom(s, w, x, now, rec, targets, 0, answers);
    }
  }
}
