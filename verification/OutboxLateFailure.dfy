/**
 A WhatsApp failure that arrives while a worker is finishing.

 Recording a verdict, noting a receipt and finishing are separate transactions.  A failure can be
 overwritten: the event then ends as if the message might have arrived while the delivery row
 says it failed.  In timely runs this happens in one way only, and it is final.
 */
module OutboxLateFailure {
  import opened Options
  import opened OutboxRows
  import opened OutboxMachine
  import opened OutboxSafety
  import opened OutboxFinality

  predicate OnTime(x: Worker, now: Time) { now < x.began + DELIVER_LEASE }

  predicate Arrived(report: Report) { report == ReceiptDelivered || report == ReceiptRead }

  /** The delivery row says that WhatsApp did not take, or did not deliver, the message. */
  predicate RefusalKnown(d: Entry) { d.state == RetryableRejection && d.outcome == Rejected(WhatsApp) }

  /** The failure is known and another worker may try a further route. */
  predicate Reopened(s: Shared) {
    s.event.state == Prepared && RefusalKnown(s.delivery) && s.delivery.report == ReceiptFailed
  }

  /** The event is over as accepted or uncertain although the delivery row says rejected. */
  predicate RefusalLost(s: Shared) {
    s.event.state == Done && WhatsAppOpen(s.event.outcome) && RefusalKnown(s.delivery)
  }

  /** The same after a failed receipt. */
  predicate Contradicted(s: Shared) { RefusalLost(s) && s.delivery.report == ReceiptFailed }

  /** A failed receipt would take effect now. */
  predicate Effective(s: Shared) {
    && s.event.kind == EventRow && s.event.notice.Some?
    && WhatsApp in s.delivery.attempted && !Outranked(s.delivery.report, ReceiptFailed)
    && WhatsAppOpen(s.delivery.outcome)
    && (s.event.state == Prepared || (s.event.state == Done && WhatsAppOpen(s.event.outcome)))
  }

  /** The worker holds the lease, has decided and is about to finish, naming its delivery row. */
  predicate Deciding(s: Shared, w: Owner, x: Worker, now: Time) {
    s.event.leaseOwner == w && x.pc.AtFinish? && x.pc.withDelivery && OnTime(x, now)
  }

  /** What it decided is no longer true. */
  predicate Outdated(s: Shared, w: Owner, x: Worker, now: Time) {
    Deciding(s, w, x, now) && WhatsAppOpen(x.pc.outcome) && Reopened(s)
  }

  predicate Finishing(c: Cell, now: Time) {
    var w := c.shared.event.leaseOwner;
    w in c.workers && Deciding(c.shared, w, c.workers[w], now)
  }

  predicate Overwritable(c: Cell, now: Time) {
    var w := c.shared.event.leaseOwner;
    w in c.workers && Outdated(c.shared, w, c.workers[w], now)
  }

  lemma EffectiveReopens(s: Shared)
    requires Effective(s)
    ensures Reopened(Received(s, ReceiptFailed))
  {
  }

  // ---------------------------------------------------------------- the invariant

  /** A decided worker still agrees with its delivery row, unless a receipt came in between. */
  ghost predicate DecidedOk(s: Shared, pc: Pc)
    requires pc.AtFinish?
  {
    if !pc.withDelivery then !WhatsAppOpen(pc.outcome)
    else
      || s.delivery.outcome == pc.outcome
      || (Reopened(s) && WhatsAppOpen(pc.outcome))
      || Arrived(s.delivery.report)
  }

  /** While a worker is at it, the event is only ever closed by a delivery receipt. */
  ghost predicate LateWorker(s: Shared, x: Worker, now: Time) {
    Undecided(x.pc) && OnTime(x, now) ==>
      && (s.event.state == Done ==> s.event.outcome == Accepted(WhatsApp) && Arrived(s.delivery.report))
      && (x.pc.AtFinish? ==> DecidedOk(s, x.pc))
  }

  ghost predicate LateShared(s: Shared) {
    s.event.state == Done && WhatsAppOpen(s.event.outcome) && s.delivery.outcome == Rejected(WhatsApp) ==>
      s.delivery.report == ReceiptFailed || Arrived(s.delivery.report)
  }

  ghost predicate LateOk(c: Cell, now: Time) {
    LateShared(c.shared) && forall w :: w in c.workers ==> LateWorker(c.shared, c.workers[w], now)
  }

  /** Everything known about the worker that moves. */
  ghost predicate Poised(s: Shared, w: Owner, x: Worker, now: Time, action: Action) {
    && Ready(s, w, x, now, action) && Able(s, w, x, now, action)
    && LateShared(s) && LateWorker(s, x, now)
  }

  lemma SendStaysLateShared(s: Shared, w: Owner, x: Worker, now: Time, rec: Entry, action: Action)
    requires Poised(s, w, x, now, action) && Sends(action)
    ensures LateShared(Act(s, w, x, now, rec, action).shared)
  {
  }

  lemma ActStaysLateShared(s: Shared, w: Owner, x: Worker, now: Time, rec: Entry, action: Action)
    requires Poised(s, w, x, now, action)
    ensures LateShared(Act(s, w, x, now, rec, action).shared)
  {
    if Sends(action) {
      SendStaysLateShared(s, w, x, now, rec, action);
    }
  }

  /** A worker that stops looking decides what its delivery row says. */
  lemma DecidingStaysLate(s: Shared, w: Owner, x: Worker, now: Time, rec: Entry, action: Action)
    requires Poised(s, w, x, now, action) && (action.DoIntent? || action.DoVerdict?)
    ensures LateWorker(Act(s, w, x, now, rec, action).shared, Act(s, w, x, now, rec, action).worker, now)
  {
  }

  lemma PlanningStaysLate(s: Shared, w: Owner, x: Worker, now: Time, rec: Entry, action: Action)
    requires Poised(s, w, x, now, action) && (action.DoPlan? || action.DoMissing? || action.DoSend?)
    ensures LateWorker(Act(s, w, x, now, rec, action).shared, Act(s, w, x, now, rec, action).worker, now)
  {
  }

  lemma ActStaysLateMover(s: Shared, w: Owner, x: Worker, now: Time, rec: Entry, action: Action)
    requires Poised(s, w, x, now, action)
    ensures LateWorker(Act(s, w, x, now, rec, action).shared, Act(s, w, x, now, rec, action).worker, now)
  {
    if action.DoIntent? || action.DoVerdict? {
      DecidingStaysLate(s, w, x, now, rec, action);
    } else if action.DoPlan? || action.DoMissing? || action.DoSend? {
      PlanningStaysLate(s, w, x, now, rec, action);
    }
  }

  /** A worker within its lease is the only one that can be undecided within its lease. */
  lemma OneUndecided(s: Shared, w: Owner, x: Worker, v: Owner, y: Worker, now: Time)
    requires FinalWorker(s, w, x, now) && FinalWorker(s, v, y, now) && v != w
    ensures !(Undecided(x.pc) && OnTime(x, now) && Undecided(y.pc) && OnTime(y, now))
  {
  }

  lemma BystanderStaysLate(s: Shared, w: Owner, x: Worker, now: Time, rec: Entry, action: Action, v: Owner, y: Worker)
    requires Poised(s, w, x, now, action) && v != w
    requires WorkerOk(s, v, y) && FinalWorker(s, v, y, now) && LateWorker(s, y, now)
    ensures LateWorker(Act(s, w, x, now, rec, action).shared, y, now)
  {
    if Undecided(y.pc) && OnTime(y, now) {
      OneUndecided(s, w, x, v, y, now);
    }
  }

  /** Everything known about a cell between two steps of a timely run. */
  ghost predicate Sound(c: Cell, now: Time) { now > 0 && Inv(c) && Final(c, now) && LateOk(c, now) }

  lemma OutsideStaysLate(c: Cell, now: Time, step: Step)
    requires Sound(c, now)
    ensures LateShared(Outside(c.shared, now, step))
    ensures forall w :: w in c.workers ==> LateWorker(Outside(c.shared, now, step), c.workers[w], now)
  {
  }

  lemma StepStaysLate(c: Cell, rec: Entry, now: Time, step: Step)
    requires Sound(c, now) && TimelyStep(c, now, step)
    ensures LateOk(Do(c, rec, now, step).0, now)
  {
    match step
    case StartStep(_, _) =>
    case WorkerStep(w, action) =>
      if w in c.workers && Enabled(c.workers[w], action) {
        var x := c.workers[w];
        ActStaysLateShared(c.shared, w, x, now, rec, action);
        ActStaysLateMover(c.shared, w, x, now, rec, action);
        forall v | v in c.workers && v != w
          ensures LateWorker(Act(c.shared, w, x, now, rec, action).shared, c.workers[v], now)
        {
          BystanderStaysLate(c.shared, w, x, now, rec, action, v, c.workers[v]);
        }
      }
    case _ => OutsideStaysLate(c, now, step);
  }

  // ---------------------------------------------------------------- the one way in

  /** The commit that overwrites the failure. */
  predicate Overwrites(c: Cell, now: Time, step: Step) {
    Overwritable(c, now) && step == WorkerStep(c.shared.event.leaseOwner, DoFinish)
  }

  /** The receipt that comes too late for the worker that has decided. */
  predicate ComesBetween(c: Cell, now: Time, step: Step) {
    Finishing(c, now) && Effective(c.shared) && step == ReceiptStep(ReceiptFailed)
  }

  lemma FinishContradicts(s: Shared, w: Owner, x: Worker, now: Time, rec: Entry, action: Action)
    requires Poised(s, w, x, now, action) && !Contradicted(s) && action.DoFinish?
    ensures Contradicted(Act(s, w, x, now, rec, action).shared) <==> Outdated(s, w, x, now)
  {
  }

  lemma ActContradicts(s: Shared, w: Owner, x: Worker, now: Time, rec: Entry, action: Action)
    requires Poised(s, w, x, now, action) && !Contradicted(s)
    ensures Contradicted(Act(s, w, x, now, rec, action).shared) <==>
      action.DoFinish? && Outdated(s, w, x, now)
  {
    if action.DoFinish? {
      FinishContradicts(s, w, x, now, rec, action);
    }
  }

  lemma OutsideNeverContradicts(s: Shared, now: Time, step: Step)
    requires SharedOk(s) && LateShared(s) && !Contradicted(s)
    ensures !Contradicted(Outside(s, now, step))
  {
  }

  lemma ContradictedOnlyByOverwriting(c: Cell, rec: Entry, now: Time, step: Step)
    requires Sound(c, now) && TimelyStep(c, now, step) && !Contradicted(c.shared)
    ensures Contradicted(Do(c, rec, now, step).0.shared) <==> Overwrites(c, now, step)
  {
    match step
    case StartStep(_, _) =>
    case WorkerStep(w, action) =>
      if w in c.workers && Enabled(c.workers[w], action) {
        ActContradicts(c.shared, w, c.workers[w], now, rec, action);
      }
    case _ => OutsideNeverContradicts(c.shared, now, step);
  }

  lemma MoverStaysUpToDate(s: Shared, w: Owner, x: Worker, now: Time, rec: Entry, action: Action)
    requires Poised(s, w, x, now, action) && !Outdated(s, w, x, now)
    ensures !Outdated(Act(s, w, x, now, rec, action).shared, w, Act(s, w, x, now, rec, action).worker, now)
  {
  }

  lemma BystanderStaysUpToDate(s: Shared, w: Owner, x: Worker, now: Time, rec: Entry, action: Action,
                               v: Owner, y: Worker)
    requires Poised(s, w, x, now, action) && v != w && !Outdated(s, v, y, now)
    requires WorkerOk(s, v, y) && FinalWorker(s, v, y, now) && LateWorker(s, y, now)
    ensures !Outdated(Act(s, w, x, now, rec, action).shared, v, y, now)
  {
  }

  lemma OutsideOutdates(s: Shared, now: Time, step: Step, w: Owner, x: Worker)
    requires SharedOk(s) && WorkerOk(s, w, x) && LateWorker(s, x, now) && !Outdated(s, w, x, now)
    ensures Outdated(Outside(s, now, step), w, x, now) <==>
      Deciding(s, w, x, now) && Effective(s) && step == ReceiptStep(ReceiptFailed)
  {
  }

  lemma OverwritableOnlyByReceipt(c: Cell, rec: Entry, now: Time, step: Step)
    requires Sound(c, now) && TimelyStep(c, now, step) && !Overwritable(c, now)
    ensures Overwritable(Do(c, rec, now, step).0, now) <==> ComesBetween(c, now, step)
  {
    match step
    case StartStep(_, _) =>
    case WorkerStep(w, action) =>
      if w in c.workers && Enabled(c.workers[w], action) {
        var after := Act(c.shared, w, c.workers[w], now, rec, action).shared;
        var v := after.event.leaseOwner;
        if v == w {
          if !Outdated(c.shared, w, c.workers[w], now) {
            MoverStaysUpToDate(c.shared, w, c.workers[w], now, rec, action);
          }
        } else if v in c.workers {
          BystanderStaysUpToDate(c.shared, w, c.workers[w], now, rec, action, v, c.workers[v]);
        }
      }
    case _ =>
      var v := c.shared.event.leaseOwner;
      if v in c.workers {
        OutsideOutdates(c.shared, now, step, v, c.workers[v]);
      }
  }

  // ---------------------------------------------------------------- what a finish does with a failure

  /**
   A worker that decided on an open send loses the failure exactly when a receipt reopened the
   notice before its finish.
   */
  lemma FinishLosesExactly(s: Shared, w: Owner, x: Worker, now: Time, rec: Entry)
    requires Poised(s, w, x, now, DoFinish) && OnTime(x, now)
    requires x.pc.withDelivery && WhatsAppOpen(x.pc.outcome) && s.delivery.report == ReceiptFailed
    ensures
      var t := Act(s, w, x, now, rec, DoFinish).shared;
      (Contradicted(t) <==> Reopened(s)) && (!Reopened(s) ==> Reopened(t))
  {
  }

  /**
   A finish that names no delivery row ends the notice for a reason of its own, and only a missing
   messenger is reconsidered.
   */
  lemma FinishWithoutDelivery(s: Shared, w: Owner, x: Worker, now: Time, rec: Entry, later: Time)
    requires Poised(s, w, x, now, DoFinish) && s.event.leaseOwner == w && OnTime(x, now) && !x.pc.withDelivery
    ensures
      var t := Act(s, w, x, now, rec, DoFinish).shared;
      && t.event.state == Done && t.event.outcome == x.pc.outcome && t.delivery == s.delivery && !Contradicted(t)
      && Fallback(t.event, t.delivery) == (t.event, t.delivery)
      && (Reopenable(t.event, later) <==>
            x.pc.outcome == NoLinkedMessenger && t.event.attempted == [] && t.event.leaseUntil <= later)
  {
  }

  // ---------------------------------------------------------------- there is no way out

  /** The failure is lost, or the message turned out to have arrived after all. */
  predicate Ended(s: Shared) {
    || Contradicted(s)
    || (s.event.state == Done && WhatsAppOpen(s.event.outcome)
        && s.delivery.state == Done && s.delivery.outcome == Accepted(WhatsApp) && Arrived(s.delivery.report))
  }

  ghost predicate Quiet(c: Cell, now: Time) {
    forall w :: w in c.workers ==> !(Undecided(c.workers[w].pc) && OnTime(c.workers[w], now))
  }

  /** The event, its attempts and its calls are as they were. */
  predicate Same(s: Shared, t: Shared) {
    && t.event.state == s.event.state && t.event.outcome == s.event.outcome && t.event.notice == s.event.notice
    && t.delivery.attempted == s.delivery.attempted && t.history.calls == s.history.calls
  }

  lemma ContradictedIsQuiet(c: Cell, now: Time)
    requires Sound(c, now) && Contradicted(c.shared)
    ensures Quiet(c, now)
  {
    forall w | w in c.workers ensures !(Undecided(c.workers[w].pc) && OnTime(c.workers[w], now)) {
      assert LateWorker(c.shared, c.workers[w], now);
    }
  }

  ghost predicate LeavesEnded(s: Shared, r: Effect, now: Time) {
    Ended(r.shared) && Same(s, r.shared) && !(Undecided(r.worker.pc) && OnTime(r.worker, now))
  }

  lemma SmsActLeavesEnded(s: Shared, w: Owner, x: Worker, now: Time, rec: Entry, action: Action)
    requires Poised(s, w, x, now, action) && Ended(s) && ForSms(action)
    ensures LeavesEnded(s, Act(s, w, x, now, rec, action), now)
  {
  }

  lemma ActLeavesEnded(s: Shared, w: Owner, x: Worker, now: Time, rec: Entry, action: Action)
    requires Poised(s, w, x, now, action) && Ended(s) && !(Undecided(x.pc) && OnTime(x, now))
    ensures LeavesEnded(s, Act(s, w, x, now, rec, action), now)
  {
    if ForSms(action) {
      SmsActLeavesEnded(s, w, x, now, rec, action);
    }
  }

  lemma OutsideLeavesEnded(s: Shared, now: Time, step: Step)
    requires SharedOk(s) && Ended(s)
    ensures Ended(Outside(s, now, step)) && Same(s, Outside(s, now, step))
  {
  }

  lemma EndedStays(c: Cell, rec: Entry, now: Time, step: Step)
    requires Sound(c, now) && TimelyStep(c, now, step) && Ended(c.shared) && Quiet(c, now)
    ensures
      var d := Do(c, rec, now, step).0;
      Ended(d.shared) && Same(c.shared, d.shared) && Quiet(d, now)
  {
    match step
    case StartStep(_, _) =>
    case WorkerStep(w, action) =>
      if w in c.workers && Enabled(c.workers[w], action) {
        ActLeavesEnded(c.shared, w, c.workers[w], now, rec, action);
      }
    case _ => OutsideLeavesEnded(c.shared, now, step);
  }
}
