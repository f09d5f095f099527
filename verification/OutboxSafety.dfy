/**
 What every step of the outbox keeps, for one event under any interleaving.

 The invariant is a condition on the shared rows and one condition per worker, so a step is
 checked on the worker that moves and on one bystander.
 */
module OutboxSafety {
  import opened Options
  import opened OutboxRows
  import opened OutboxMachine

  // ---------------------------------------------------------------- the invariant

  predicate Late(outcome: Outcome) {
    outcome in {FailedSms, CancelledSms, SmsAlertRetryable}
  }

  predicate SmsSide(outcome: Outcome) {
    Late(outcome) || outcome in {Accepted(Sms), Uncertain(Sms), UnconfirmedSms, DeliveredSms}
  }

  predicate Lost(report: Report) { report in {SmsFailed, SmsCancelled} }

  /** A worker that may still write the event's verdict. */
  predicate Undecided(pc: Pc) { Leasing(pc) && pc != AtRelease }

  predicate Alerting(pc: Pc) { pc == AtAlert || pc == AtAlertRefused }

  /** The places a worker can be without a notice in hand. */
  predicate Unprepared(pc: Pc) {
    !(pc.AtPlan? || pc.AtIntent? || pc.AtSend? || pc.AtVerdict?) && (pc.AtFinish? ==> pc.outcome == RecordUnavailable)
  }

  predicate Called(h: History, r: Route) {
    exists i :: 0 <= i < |h.calls| && h.calls[i].route == r
  }

  function Unresolved(alerts: seq<Answer>): nat {
    if alerts == [] then 0
    else Unresolved(alerts[..|alerts| - 1]) + if alerts[|alerts| - 1] == Refused then 0 else 1
  }

  ghost predicate EventOk(e: Entry, h: History) {
    && (e.kind == NoKind ==> e == BLANK)
    && (e.kind != NoKind ==> e.kind == EventRow && e.state in {Pending, Prepared, Done})
    && (e.state != Done ==> e.outcome == NoOutcome)
    && (e.state == Pending ==> e.notice == None)
    && (e.state == Prepared ==> e.notice != None)
    && (e.state == Done && e.notice == None ==> e.outcome in {RecordUnavailable, DuplicateOrStale})
    && h.prepared == (if e.notice == None then [] else [e.notice.value])
  }

  ghost predicate DeliveryOk(d: Entry) {
    && d.state in {NoState, Sending, Done, RetryableRejection}
    && (d.outcome.NoOutcome? || d.outcome.Accepted? || d.outcome.Uncertain? || d.outcome.Rejected?)
  }

  /** No route is called twice, and every call carried the one notice of the event. */
  ghost predicate CallsOk(s: Shared) {
    && (forall i, j :: 0 <= i < j < |s.history.calls| ==> s.history.calls[i].route != s.history.calls[j].route)
    && (forall i :: 0 <= i < |s.history.calls| ==>
          s.history.calls[i].route in s.delivery.attempted && s.event.notice == Some(s.history.calls[i].notice))
  }

  /** A failed SMS keeps its verdict, and a reservation backs at most one unrefused alert. */
  ghost predicate SmsOk(e: Entry, h: History) {
    && (e.alertedAt != 0 ==> e.state == Done && e.outcome == SmsFailureOutcome(e.report))
    && (Late(e.outcome) <==> Lost(e.report))
    && (Late(e.outcome) ==> e.outcome in {SmsAlertRetryable, SmsFailureOutcome(e.report)})
    && (e.alertedAt == 0 ==> Unresolved(h.alerts) == 0)
    && Unresolved(h.alerts) <= 1
  }

  ghost predicate SharedOk(s: Shared) {
    EventOk(s.event, s.history) && DeliveryOk(s.delivery) && CallsOk(s) && SmsOk(s.event, s.history)
  }

  ghost predicate WorkerOk(s: Shared, w: Owner, x: Worker) {
    && w != 0 && x.began > 0
    && (!x.pc.AtSmsClaim? && !x.pc.Gone? ==> s.event.kind == EventRow)
    && (x.pc == AtPrepare && s.event.leaseOwner == w ==> s.event.state == Pending)
    && (if x.notice == None then Unprepared(x.pc) else x.notice == s.event.notice)
    && (x.pc.AtSend? && x.pc.rest != [] ==>
          && x.pc.rest[0] in s.delivery.attempted && !Called(s.history, x.pc.rest[0])
          && x.pc.rest[0] in s.history.intents && s.history.intents[x.pc.rest[0]] == w)
    && (Undecided(x.pc) && s.event.leaseOwner == w ==> !SmsSide(s.event.outcome))
    && (x.pc.AtFinish? ==> !Late(x.pc.outcome))
    && (x.pc == AtSmsRead && s.event.leaseOwner == w ==> s.event.outcome in {Accepted(Sms), Uncertain(Sms)})
    && (Alerting(x.pc) ==> s.event.alertedAt == x.began && s.history.alerter == w)
    && (x.pc == AtAlert ==> Unresolved(s.history.alerts) == 0)
    && (x.pc == AtAlertRefused ==> Unresolved(s.history.alerts) == 0)
  }

  ghost predicate Inv(c: Cell) {
    SharedOk(c.shared) && forall w :: w in c.workers ==> WorkerOk(c.shared, w, c.workers[w])
  }

  // ---------------------------------------------------------------- one step of one worker

  ghost predicate Ready(s: Shared, w: Owner, x: Worker, now: Time, action: Action) {
    SharedOk(s) && WorkerOk(s, w, x) && Enabled(x, action) && now > 0
  }

  ghost predicate Kept(r: Effect, w: Owner) {
    SharedOk(r.shared) && WorkerOk(r.shared, w, r.worker)
  }

  predicate ForSms(action: Action) {
    action.DoSmsClaim? || action.DoSmsRead? || action.DoAlert? || action.DoAlertRefused?
  }

  /** The same calls, and nothing they rest on is gone. */
  ghost predicate SameCalls(s: Shared, t: Shared) {
    && t.history.calls == s.history.calls && s.delivery.attempted <= t.delivery.attempted
    && (s.event.notice != None ==> t.event.notice == s.event.notice)
  }

  lemma SameCallsKeep(s: Shared, t: Shared)
    requires CallsOk(s) && SameCalls(s, t)
    ensures CallsOk(t)
  {
  }

  predicate Sends(action: Action) { action.DoIntent? || action.DoSend? || action.DoVerdict? }

  lemma ResumeKeeps(s: Shared, w: Owner, x: Worker, now: Time, rec: Entry, action: Action)
    requires Ready(s, w, x, now, action) && action.DoResume?
    ensures Kept(Act(s, w, x, now, rec, action), w)
  {
    SameCallsKeep(s, Act(s, w, x, now, rec, action).shared);
  }

  lemma ClaimKeeps(s: Shared, w: Owner, x: Worker, now: Time, rec: Entry, action: Action)
    requires Ready(s, w, x, now, action) && action.DoClaim?
    ensures Kept(Act(s, w, x, now, rec, action), w)
  {
    SameCallsKeep(s, Act(s, w, x, now, rec, action).shared);
  }

  lemma QuietKeeps(s: Shared, w: Owner, x: Worker, now: Time, rec: Entry, action: Action)
    requires Ready(s, w, x, now, action)
    requires action.DoBegin? || action.DoMissing? || action.DoRelease? || action.DoFail? || action.DoCrash?
    ensures Kept(Act(s, w, x, now, rec, action), w)
  {
    SameCallsKeep(s, Act(s, w, x, now, rec, action).shared);
  }

  lemma PlanKeeps(s: Shared, w: Owner, x: Worker, now: Time, rec: Entry, action: Action)
    requires Ready(s, w, x, now, action) && action.DoPlan?
    ensures Kept(Act(s, w, x, now, rec, action), w)
  {
    SameCallsKeep(s, Act(s, w, x, now, rec, action).shared);
  }

  lemma IntentKeeps(s: Shared, w: Owner, x: Worker, now: Time, rec: Entry, action: Action)
    requires Ready(s, w, x, now, action) && action.DoIntent?
    ensures Kept(Act(s, w, x, now, rec, action), w)
  {
    SameCallsKeep(s, Act(s, w, x, now, rec, action).shared);
  }

  lemma SendKeeps(s: Shared, w: Owner, x: Worker, now: Time, rec: Entry, action: Action)
    requires Ready(s, w, x, now, action) && action.DoSend?
    ensures Kept(Act(s, w, x, now, rec, action), w)
  {
    assert CallsOk(Act(s, w, x, now, rec, action).shared);
  }

  lemma VerdictKeeps(s: Shared, w: Owner, x: Worker, now: Time, rec: Entry, action: Action)
    requires Ready(s, w, x, now, action) && action.DoVerdict?
    ensures Kept(Act(s, w, x, now, rec, action), w)
  {
    SameCallsKeep(s, Act(s, w, x, now, rec, action).shared);
  }

  /** A pending event gets its first notice, or none. */
  lemma PrepareRowKeeps(e: Entry, h: History, rec: Entry, w: Owner, snap: Snapshot, assistantOwned: bool,
                        activatedAt: Time, now: Time)
    requires EventOk(e, h) && SmsOk(e, h) && e.kind == EventRow && (e.leaseOwner == w ==> e.state == Pending)
    ensures
      var r := Prepare(e, rec, w, snap, assistantOwned, activatedAt, now);
      r.Some? ==>
        var e' := r.value.0;
        var h' := if Stale(rec, snap) then h else h.(prepared := h.prepared + [e'.notice.value]);
        && e.notice == None && e'.kind == EventRow && !SmsSide(e'.outcome) && e'.alertedAt == e.alertedAt
        && (e'.notice == None <==> Stale(rec, snap)) && (Stale(rec, snap) ==> e'.state == Done)
        && EventOk(e', h') && SmsOk(e', h')
  {
  }

  lemma PrepareKeeps(s: Shared, w: Owner, x: Worker, now: Time, rec: Entry, action: Action)
    requires Ready(s, w, x, now, action) && action.DoPrepare?
    ensures Kept(Act(s, w, x, now, rec, action), w)
  {
    PrepareRowKeeps(s.event, s.history, rec, w, action.snap, action.assistantOwned, action.activatedAt, x.began);
    SameCallsKeep(s, Act(s, w, x, now, rec, action).shared);
  }

  lemma FinishRowKeeps(e: Entry, d: Entry, h: History, owner: Owner, outcome: Outcome, withDelivery: bool)
    requires EventOk(e, h) && DeliveryOk(d) && SmsOk(e, h) && e.kind == EventRow
    requires e.leaseOwner == owner ==> !SmsSide(e.outcome)
    requires e.notice == None ==> outcome == RecordUnavailable
    requires !Late(outcome)
    ensures
      var r := Finish(e, d, owner, outcome, withDelivery);
      r.Some? ==> EventOk(r.value.0, h) && DeliveryOk(r.value.1) && SmsOk(r.value.0, h)
  {
  }

  lemma FinishKeeps(s: Shared, w: Owner, x: Worker, now: Time, rec: Entry, action: Action)
    requires Ready(s, w, x, now, action) && action.DoFinish?
    ensures Kept(Act(s, w, x, now, rec, action), w)
  {
    FinishRowKeeps(s.event, s.delivery, s.history, w, x.pc.outcome, x.pc.withDelivery);
    SameCallsKeep(s, Act(s, w, x, now, rec, action).shared);
  }

  lemma SmsClaimRowKeeps(e: Entry, h: History, owner: Owner, now: Time, alerts: bool)
    requires EventOk(e, h) && SmsOk(e, h) && owner != 0 && now > 0
    ensures
      var r := SmsClaim(e, owner, now, alerts);
      && EventOk(r.row, h) && SmsOk(r.row, h) && r.row.kind == e.kind
      && (r.claimed ==> r.row.kind == EventRow)
      && (r.claimed && !r.alertOnly ==> r.row.outcome in {Accepted(Sms), Uncertain(Sms)})
      && (r.alertOnly ==> r.row.alertedAt == now && Unresolved(h.alerts) == 0)
  {
  }

  lemma SmsClaimKeeps(s: Shared, w: Owner, x: Worker, now: Time, rec: Entry, action: Action)
    requires Ready(s, w, x, now, action) && action.DoSmsClaim?
    ensures Kept(Act(s, w, x, now, rec, action), w)
  {
    SmsClaimRowKeeps(s.event, s.history, w, x.began, action.alerts);
    SameCallsKeep(s, Act(s, w, x, now, rec, action).shared);
  }

  lemma SmsVerdictKeeps(e: Entry, h: History, owner: Owner, now: Time, reading: Reading, alerts: bool)
    requires EventOk(e, h) && SmsOk(e, h) && now > 0
    requires owner != 0 && (e.leaseOwner == owner ==> e.outcome in {Accepted(Sms), Uncertain(Sms)})
    ensures var r := SmsVerdict(e, owner, now, reading, alerts).row; EventOk(r, h) && SmsOk(r, h)
  {
  }

  lemma SmsReadKeeps(s: Shared, w: Owner, x: Worker, now: Time, rec: Entry, action: Action)
    requires Ready(s, w, x, now, action) && action.DoSmsRead?
    ensures Kept(Act(s, w, x, now, rec, action), w)
  {
    SmsVerdictKeeps(s.event, s.history, w, x.began, action.reading, action.alerts);
    SameCallsKeep(s, Act(s, w, x, now, rec, action).shared);
  }

  lemma UnresolvedAppend(alerts: seq<Answer>, a: Answer)
    ensures Unresolved(alerts + [a]) == Unresolved(alerts) + if a == Refused then 0 else 1
  {
    assert (alerts + [a])[..|alerts|] == alerts;
  }

  /** The one alert that a reservation backs. */
  lemma AlertRowKeeps(e: Entry, h: History, answer: Answer)
    requires EventOk(e, h) && SmsOk(e, h) && e.alertedAt != 0 && Unresolved(h.alerts) == 0
    ensures
      var h' := h.(alerts := h.alerts + [answer]);
      EventOk(e, h') && SmsOk(e, h') && (answer == Refused ==> Unresolved(h'.alerts) == 0)
  {
    UnresolvedAppend(h.alerts, answer);
  }

  lemma AlertKeeps(s: Shared, w: Owner, x: Worker, now: Time, rec: Entry, action: Action)
    requires Ready(s, w, x, now, action) && action.DoAlert?
    ensures Kept(Act(s, w, x, now, rec, action), w)
  {
    var t := s.(history := s.history.(alerts := s.history.alerts + [action.answer]));
    assert Act(s, w, x, now, rec, action).shared == t;
    AlertRowKeeps(s.event, s.history, action.answer);
    SameCallsKeep(s, t);
  }

  lemma AlertRefusedKeeps(s: Shared, w: Owner, x: Worker, now: Time, rec: Entry, action: Action)
    requires Ready(s, w, x, now, action) && action.DoAlertRefused?
    ensures Kept(Act(s, w, x, now, rec, action), w)
  {
    SameCallsKeep(s, Act(s, w, x, now, rec, action).shared);
  }

  lemma ActKeeps(s: Shared, w: Owner, x: Worker, now: Time, rec: Entry, action: Action)
    requires Ready(s, w, x, now, action)
    ensures Kept(Act(s, w, x, now, rec, action), w)
  {
    match action
    case DoResume => ResumeKeeps(s, w, x, now, rec, action);
    case DoClaim => ClaimKeeps(s, w, x, now, rec, action);
    case DoPlan(_, _) => PlanKeeps(s, w, x, now, rec, action);
    case DoIntent => IntentKeeps(s, w, x, now, rec, action);
    case DoSend(_) => SendKeeps(s, w, x, now, rec, action);
    case DoVerdict => VerdictKeeps(s, w, x, now, rec, action);
    case DoPrepare(_, _, _) => PrepareKeeps(s, w, x, now, rec, action);
    case DoFinish => FinishKeeps(s, w, x, now, rec, action);
    case DoSmsClaim(_) => SmsClaimKeeps(s, w, x, now, rec, action);
    case DoSmsRead(_, _) => SmsReadKeeps(s, w, x, now, rec, action);
    case DoAlert(_) => AlertKeeps(s, w, x, now, rec, action);
    case DoAlertRefused => AlertRefusedKeeps(s, w, x, now, rec, action);
    case _ => QuietKeeps(s, w, x, now, rec, action);
  }

  lemma SendBystander(s: Shared, w: Owner, x: Worker, now: Time, rec: Entry, action: Action, v: Owner, y: Worker)
    requires Ready(s, w, x, now, action) && Sends(action)
    requires v != w && WorkerOk(s, v, y)
    ensures WorkerOk(Act(s, w, x, now, rec, action).shared, v, y)
  {
  }

  lemma DeliverBystander(s: Shared, w: Owner, x: Worker, now: Time, rec: Entry, action: Action, v: Owner, y: Worker)
    requires Ready(s, w, x, now, action) && !ForSms(action)
    requires v != w && WorkerOk(s, v, y)
    ensures WorkerOk(Act(s, w, x, now, rec, action).shared, v, y)
  {
    if Sends(action) {
      SendBystander(s, w, x, now, rec, action, v, y);
    }
  }

  lemma SmsBystander(s: Shared, w: Owner, x: Worker, now: Time, rec: Entry, action: Action, v: Owner, y: Worker)
    requires Ready(s, w, x, now, action) && ForSms(action)
    requires v != w && WorkerOk(s, v, y)
    ensures WorkerOk(Act(s, w, x, now, rec, action).shared, v, y)
  {
  }

  // ---------------------------------------------------------------- one step of anybody

  lemma ReceivedKeeps(s: Shared, report: Report)
    requires SharedOk(s)
    ensures SharedOk(Received(s, report))
  {
    SameCallsKeep(s, Received(s, report));
  }

  lemma OutsideKeeps(s: Shared, now: Time, step: Step)
    requires SharedOk(s)
    ensures SharedOk(Outside(s, now, step))
  {
    if step.ReceiptStep? {
      ReceivedKeeps(s, step.report);
    } else {
      SameCallsKeep(s, Outside(s, now, step));
    }
  }

  lemma OutsideBystander(s: Shared, now: Time, step: Step, v: Owner, y: Worker)
    requires SharedOk(s) && WorkerOk(s, v, y)
    ensures WorkerOk(Outside(s, now, step), v, y)
  {
  }

  lemma WorkerStepKeeps(c: Cell, rec: Entry, now: Time, w: Owner, action: Action)
    requires Inv(c) && now > 0 && w in c.workers && Enabled(c.workers[w], action)
    ensures Inv(Do(c, rec, now, WorkerStep(w, action)).0)
  {
    var x := c.workers[w];
    ActKeeps(c.shared, w, x, now, rec, action);
    forall v | v in c.workers && v != w
      ensures WorkerOk(Act(c.shared, w, x, now, rec, action).shared, v, c.workers[v])
    {
      if ForSms(action) {
        SmsBystander(c.shared, w, x, now, rec, action, v, c.workers[v]);
      } else {
        DeliverBystander(c.shared, w, x, now, rec, action, v, c.workers[v]);
      }
    }
  }

  lemma StepKeeps(c: Cell, rec: Entry, now: Time, step: Step)
    requires Inv(c) && now > 0
    ensures Inv(Do(c, rec, now, step).0)
  {
    match step
    case StartStep(_, _) =>
    case WorkerStep(w, action) =>
      if w in c.workers && Enabled(c.workers[w], action) {
        WorkerStepKeeps(c, rec, now, w, action);
      }
    case _ =>
      OutsideKeeps(c.shared, now, step);
      forall v | v in c.workers ensures WorkerOk(Outside(c.shared, now, step), v, c.workers[v]) {
        OutsideBystander(c.shared, now, step, v, c.workers[v]);
      }
  }

  // ---------------------------------------------------------------- what never changes back

  /** What `s` has settled is still settled in `t`. */
  ghost predicate Settled(s: Shared, t: Shared) {
    && (s.event.kind == EventRow ==> t.event.kind == EventRow && t.event.event == s.event.event)
    && (s.event.kind == EventRow && s.event.state != Pending ==> t.event.state != Pending)
    && (s.event.notice != None ==> t.event.notice == s.event.notice)
    && (Lost(s.event.report) ==> t.event.report == s.event.report && t.event.state == Done && Late(t.event.outcome))
    && s.delivery.attempted <= t.delivery.attempted
    && s.history.calls <= t.history.calls
    && s.history.refused <= t.history.refused
  }

  lemma SmsActSettles(s: Shared, w: Owner, x: Worker, now: Time, rec: Entry, action: Action)
    requires Ready(s, w, x, now, action) && ForSms(action)
    ensures Settled(s, Act(s, w, x, now, rec, action).shared)
  {
  }

  lemma SendActSettles(s: Shared, w: Owner, x: Worker, now: Time, rec: Entry, action: Action)
    requires Ready(s, w, x, now, action) && Sends(action)
    ensures Settled(s, Act(s, w, x, now, rec, action).shared)
  {
  }

  lemma DeliverActSettles(s: Shared, w: Owner, x: Worker, now: Time, rec: Entry, action: Action)
    requires Ready(s, w, x, now, action) && !ForSms(action)
    ensures Settled(s, Act(s, w, x, now, rec, action).shared)
  {
    if Sends(action) {
      SendActSettles(s, w, x, now, rec, action);
    }
  }

  lemma OutsideSettles(s: Shared, now: Time, step: Step)
    requires SharedOk(s)
    ensures Settled(s, Outside(s, now, step))
  {
  }

  lemma StepSettles(c: Cell, rec: Entry, now: Time, step: Step)
    requires Inv(c) && now > 0
    ensures Settled(c.shared, Do(c, rec, now, step).0.shared)
  {
    match step
    case StartStep(_, _) =>
    case WorkerStep(w, action) =>
      if w in c.workers && Enabled(c.workers[w], action) {
        if ForSms(action) {
          SmsActSettles(c.shared, w, c.workers[w], now, rec, action);
        } else {
          DeliverActSettles(c.shared, w, c.workers[w], now, rec, action);
        }
      }
    case _ => OutsideSettles(c.shared, now, step);
  }

  // ---------------------------------------------------------------- receipts

  function Rank(r: Report): nat {
    match r
    case ReceiptSent => 1
    case ReceiptFailed => 2
    case ReceiptDelivered => 3
    case ReceiptRead => 4
    case _ => 0
  }

  /** The highest receipt of a list. */
  function Best(receipts: seq<Report>): Report {
    if receipts == [] then NoReport
    else
      var r := Best(receipts[1..]);
      if Rank(receipts[0]) >= Rank(r) then receipts[0] else r
  }

  ghost predicate ReceiptsOk(s: Shared) {
    && (forall i :: 0 <= i < |s.history.receipts| ==> IsReceipt(s.history.receipts[i]))
    && s.delivery.report == Best(s.history.receipts)
  }

  lemma {:induction false} BestIsHighest(receipts: seq<Report>)
    requires forall i :: 0 <= i < |receipts| ==> IsReceipt(receipts[i])
    ensures if receipts == [] then Best(receipts) == NoReport else Best(receipts) in receipts
    ensures forall i :: 0 <= i < |receipts| ==> Rank(receipts[i]) <= Rank(Best(receipts))
  {
    if receipts != [] {
      BestIsHighest(receipts[1..]);
    }
  }

  /** Neither order nor repetition of receipts matters. */
  lemma SameReceiptsSameBest(a: seq<Report>, b: seq<Report>)
    requires forall r :: r in a ==> IsReceipt(r)
    requires forall r :: r in a <==> r in b
    ensures Best(a) == Best(b)
  {
    BestIsHighest(a);
    BestIsHighest(b);
  }

  lemma {:induction false} BestAppend(receipts: seq<Report>, r: Report)
    requires IsReceipt(r) && forall i :: 0 <= i < |receipts| ==> IsReceipt(receipts[i])
    ensures Best(receipts + [r]) == if Rank(r) >= Rank(Best(receipts)) then r else Best(receipts)
  {
    BestIsHighest(receipts);
    BestIsHighest(receipts + [r]);
    assert forall i :: 0 <= i < |receipts| ==> (receipts + [r])[i] == receipts[i];
    assert (receipts + [r])[|receipts|] == r;
  }

  lemma ReceivedJoins(s: Shared, report: Report)
    requires ReceiptsOk(s)
    ensures ReceiptsOk(Received(s, report))
  {
    if IsReceipt(report) {
      BestAppend(s.history.receipts, report);
      BestIsHighest(s.history.receipts);
    }
  }

  lemma ActTakesNoReceipt(s: Shared, w: Owner, x: Worker, now: Time, rec: Entry, action: Action)
    requires Enabled(x, action)
    ensures
      var t := Act(s, w, x, now, rec, action).shared;
      t.history.receipts == s.history.receipts && t.delivery.report == s.delivery.report
  {
  }

  lemma ReceiptStepJoins(c: Cell, rec: Entry, now: Time, step: Step)
    requires ReceiptsOk(c.shared)
    ensures ReceiptsOk(Do(c, rec, now, step).0.shared)
  {
    match step
    case WorkerStep(w, action) =>
      if w in c.workers && Enabled(c.workers[w], action) {
        ActTakesNoReceipt(c.shared, w, c.workers[w], now, rec, action);
      }
    case ReceiptStep(report) => ReceivedJoins(c.shared, report);
    case _ =>
  }
}
