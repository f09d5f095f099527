/**
 No customer is told about a version of the booking that the calendar no longer showed.
 */
module OutboxFreshness {
  import opened Options
  import opened OutboxRows
  import opened OutboxMachine
  import opened OutboxSafety

  /**
   The booking read right before sending was still the version of the notice, had not started
   unless it is cancelled, and a reminder was neither late nor about a cancelled booking.
   */
  predicate Fresh(event: Event, notice: Notice, read: Read) {
    var v := read.latest.version;
    && v == notice.fingerprint
    && (v.status == Cancelled || v.start > read.at)
    && (notice.purpose == BookingReminder ==> read.at <= event.receivedAt + REMINDER_GRACE && v.status != Cancelled)
  }

  ghost predicate CallsFresh(s: Shared) {
    forall i :: 0 <= i < |s.history.calls| ==> Fresh(s.event.event, s.history.calls[i].notice, s.history.calls[i].read)
  }

  ghost predicate WorkerFresh(s: Shared, x: Worker) {
    x.pc.AtIntent? || x.pc.AtSend? || x.pc.AtVerdict? ==>
      x.notice.Some? && x.read.Some? && Fresh(s.event.event, x.notice.value, x.read.value)
  }

  ghost predicate CellFresh(c: Cell) {
    CallsFresh(c.shared) && forall w :: w in c.workers ==> WorkerFresh(c.shared, c.workers[w])
  }

  lemma PlannedIsFresh(event: Event, now: Time, notice: Notice, latest: Snapshot, plan: Plan)
    ensures Planned(event, now, notice, latest, plan).AtIntent? ==> Fresh(event, notice, Read(latest, now))
  {
  }

  lemma ActStaysFresh(s: Shared, w: Owner, x: Worker, now: Time, rec: Entry, action: Action)
    requires Ready(s, w, x, now, action) && WorkerFresh(s, x) && !ForSms(action)
    ensures WorkerFresh(Act(s, w, x, now, rec, action).shared, Act(s, w, x, now, rec, action).worker)
  {
    DeliverActSettles(s, w, x, now, rec, action);
    if action.DoPlan? {
      PlannedIsFresh(s.event.event, now, x.notice.value, action.latest, action.plan);
    }
  }

  lemma ActMakesFreshCalls(s: Shared, w: Owner, x: Worker, now: Time, rec: Entry, action: Action)
    requires Ready(s, w, x, now, action) && WorkerFresh(s, x) && CallsFresh(s)
    requires s.event.event == Act(s, w, x, now, rec, action).shared.event.event
    ensures CallsFresh(Act(s, w, x, now, rec, action).shared)
  {
  }

  lemma SmsActStaysFresh(s: Shared, w: Owner, x: Worker, now: Time, rec: Entry, action: Action)
    requires Ready(s, w, x, now, action) && ForSms(action)
    ensures WorkerFresh(Act(s, w, x, now, rec, action).shared, Act(s, w, x, now, rec, action).worker)
  {
  }

  lemma EventStays(s: Shared, w: Owner, x: Worker, now: Time, rec: Entry, action: Action)
    requires Ready(s, w, x, now, action)
    ensures Act(s, w, x, now, rec, action).shared.event.event == s.event.event
  {
  }

  lemma OutsideKeepsEvent(s: Shared, now: Time, step: Step)
    requires SharedOk(s) && s.event.kind != NoKind
    ensures Outside(s, now, step).event.event == s.event.event
  {
  }

  lemma OutsideKeepsCalls(s: Shared, now: Time, step: Step)
    requires SharedOk(s)
    ensures Outside(s, now, step).history.calls == s.history.calls
    ensures s.event.kind == NoKind ==> s.history.calls == []
  {
    if s.history.calls != [] {
      assert s.event.notice == Some(s.history.calls[0].notice);
    }
  }

  lemma OutsideStaysFresh(c: Cell, now: Time, step: Step)
    requires Inv(c) && CellFresh(c)
    ensures CallsFresh(Outside(c.shared, now, step))
    ensures forall w :: w in c.workers ==> WorkerFresh(Outside(c.shared, now, step), c.workers[w])
  {
    OutsideKeepsCalls(c.shared, now, step);
    if c.shared.event.kind != NoKind {
      OutsideKeepsEvent(c.shared, now, step);
    }
  }

  lemma StepStaysFresh(c: Cell, rec: Entry, now: Time, step: Step)
    requires Inv(c) && CellFresh(c) && now > 0
    ensures CellFresh(Do(c, rec, now, step).0)
  {
    match step
    case StartStep(_, _) =>
    case WorkerStep(w, action) =>
      if w in c.workers && Enabled(c.workers[w], action) {
        var x := c.workers[w];
        EventStays(c.shared, w, x, now, rec, action);
        ActMakesFreshCalls(c.shared, w, x, now, rec, action);
        if ForSms(action) {
          SmsActStaysFresh(c.shared, w, x, now, rec, action);
        } else {
          ActStaysFresh(c.shared, w, x, now, rec, action);
        }
      }
    case _ => OutsideStaysFresh(c, now, step);
  }
}
