/**
 When no worker outlives its lease: a further route is tried only after every earlier one is
 known not to have delivered, so a send that was accepted or whose fate is unknown is final.
 */
module OutboxFinality {
  import opened OutboxRows
  import opened OutboxMachine
  import opened OutboxSafety

  /** The worker acts within its lease; giving up, crashing and releasing may come late. */
  predicate Timely(x: Worker, action: Action, now: Time) {
    Leasing(x.pc) && !action.DoCrash? && !action.DoFail? && !action.DoRelease? ==> now < x.began + DELIVER_LEASE
  }

  function Last(routes: seq<Route>): Route
    requires routes != []
  {
    routes[|routes| - 1]
  }

  predicate Concerns(outcome: Outcome, r: Route) {
    outcome == Accepted(r) || outcome == Uncertain(r) || outcome == Rejected(r)
  }

  ghost predicate AllRefused(s: Shared) {
    forall r :: r in s.delivery.attempted ==> r in s.history.refused
  }

  /** Only the last attempted route may still have delivered. */
  ghost predicate OnlyLastOpen(s: Shared) {
    var att := s.delivery.attempted;
    forall i :: 0 <= i < |att| - 1 ==> att[i] in s.history.refused
  }

  ghost predicate FinalShared(s: Shared) {
    && OnlyLastOpen(s)
    && (s.delivery.state in {Sending, Done, RetryableRejection, NoState})
    && (s.delivery.state == NoState <==> s.delivery.attempted == [])
    && (s.delivery.state == RetryableRejection ==> AllRefused(s))
    && (if s.delivery.attempted == [] then s.delivery.outcome == NoOutcome
        else Concerns(s.delivery.outcome, Last(s.delivery.attempted)))
    && (s.delivery.report == ReceiptFailed ==> WhatsApp in s.history.refused)
  }

  /** A worker within its lease is the one the row names, and owns the attempt in progress. */
  ghost predicate FinalWorker(s: Shared, w: Owner, x: Worker, now: Time) {
    && x.began <= now
    && (Leasing(x.pc) && now < x.began + DELIVER_LEASE ==>
          && s.event.leaseOwner == w && s.event.leaseUntil == x.began + DELIVER_LEASE
          && ((x.pc.AtSend? || x.pc.AtVerdict?) && x.pc.rest != [] ==>
                s.delivery.attempted != [] && x.pc.rest[0] == Last(s.delivery.attempted))
          && (x.pc.AtVerdict? && x.pc.rest != [] && x.pc.answer == Refused ==> x.pc.rest[0] in s.history.refused))
  }

  ghost predicate Final(c: Cell, now: Time) {
    FinalShared(c.shared) && forall w :: w in c.workers ==> FinalWorker(c.shared, w, c.workers[w], now)
  }

  ghost predicate Able(s: Shared, w: Owner, x: Worker, now: Time, action: Action) {
    FinalShared(s) && FinalWorker(s, w, x, now) && Enabled(x, action) && Timely(x, action, now)
  }

  lemma SendKeepsRowsFinal(s: Shared, w: Owner, x: Worker, now: Time, rec: Entry, action: Action)
    requires Able(s, w, x, now, action) && Sends(action)
    ensures FinalShared(Act(s, w, x, now, rec, action).shared)
  {
  }

  lemma ActKeepsRowsFinal(s: Shared, w: Owner, x: Worker, now: Time, rec: Entry, action: Action)
    requires Able(s, w, x, now, action)
    ensures FinalShared(Act(s, w, x, now, rec, action).shared)
  {
    if Sends(action) {
      SendKeepsRowsFinal(s, w, x, now, rec, action);
    }
  }

  lemma ActKeepsMoverFinal(s: Shared, w: Owner, x: Worker, now: Time, rec: Entry, action: Action)
    requires Able(s, w, x, now, action)
    ensures FinalWorker(Act(s, w, x, now, rec, action).shared, w, Act(s, w, x, now, rec, action).worker, now)
  {
  }

  lemma BystanderStaysFinal(s: Shared, w: Owner, x: Worker, now: Time, rec: Entry, action: Action, v: Owner, y: Worker)
    requires Able(s, w, x, now, action) && v != w && FinalWorker(s, v, y, now)
    ensures FinalWorker(Act(s, w, x, now, rec, action).shared, v, y, now)
  {
  }

  lemma ReceivedRowsStayFinal(s: Shared, report: Report)
    requires SharedOk(s) && FinalShared(s)
    ensures FinalShared(Received(s, report))
  {
  }

  lemma OutsideRowsStayFinal(s: Shared, now: Time, step: Step)
    requires SharedOk(s) && FinalShared(s)
    ensures FinalShared(Outside(s, now, step))
  {
    if step.ReceiptStep? {
      ReceivedRowsStayFinal(s, step.report);
    }
  }

  lemma OutsideBystanderStaysFinal(s: Shared, now: Time, step: Step, w: Owner, x: Worker)
    requires SharedOk(s) && WorkerOk(s, w, x) && FinalWorker(s, w, x, now)
    ensures FinalWorker(Outside(s, now, step), w, x, now)
  {
  }

  lemma OutsideStaysFinal(c: Cell, now: Time, step: Step)
    requires Inv(c) && Final(c, now)
    ensures FinalShared(Outside(c.shared, now, step))
    ensures forall w :: w in c.workers ==> FinalWorker(Outside(c.shared, now, step), w, c.workers[w], now)
  {
    OutsideRowsStayFinal(c.shared, now, step);
    forall w | w in c.workers ensures FinalWorker(Outside(c.shared, now, step), w, c.workers[w], now) {
      OutsideBystanderStaysFinal(c.shared, now, step, w, c.workers[w]);
    }
  }

  /** Whoever moves is within its lease. */
  predicate TimelyStep(c: Cell, now: Time, step: Step) {
    match step
    case WorkerStep(w, action) => w in c.workers ==> Timely(c.workers[w], action, now)
    case _ => true
  }

  lemma StepStaysFinal(c: Cell, rec: Entry, now: Time, step: Step)
    requires Inv(c) && Final(c, now) && TimelyStep(c, now, step)
    ensures Final(Do(c, rec, now, step).0, now)
  {
    match step
    case StartStep(_, _) =>
    case WorkerStep(w, action) =>
      if w in c.workers && Enabled(c.workers[w], action) {
        ActKeepsRowsFinal(c.shared, w, c.workers[w], now, rec, action);
        ActKeepsMoverFinal(c.shared, w, c.workers[w], now, rec, action);
        forall v | v in c.workers && v != w
          ensures FinalWorker(Act(c.shared, w, c.workers[w], now, rec, action).shared, v, c.workers[v], now)
        {
          BystanderStaysFinal(c.shared, w, c.workers[w], now, rec, action, v, c.workers[v]);
        }
      }
    case _ => OutsideStaysFinal(c, now, step);
  }
}
