/**
 The drafts table of the web booking form and the reminder jobs of its drafts: every SQL
 statement is one function on the tables, and `Store` runs the same statements in place.
 */
module DraftStore {
  import opened Options
  import WebReminder

  const DRAFT_LIFE: nat := 900
  const STUCK_AFTER: nat := 90
  const KEEP: nat := 30 * 86400
  const REMINDER_NOTICE: nat := 300
  const REMINDER_GRACE: nat := 900

  datatype Status = Ready | Checking | Sending | Confirmed | Rejected | Uncertain | Superseded

  /** `visitAt` is the start of the confirmed appointment, 0 while there is none. */
  datatype Draft = Draft(
    session: string, phone: string, status: Status, createdAt: nat, expiresAt: nat, updatedAt: nat, visitAt: nat)

  type Table = map<string, Draft>

  /** These statuses block every other booking for the phone. */
  predicate Locks(status: Status) { status in {Checking, Sending, Uncertain} }

  predicate PhoneLocked(t: Table, phone: string) {
    exists id :: id in t && t[id].phone == phone && Locks(t[id].status)
  }

  predicate Locking(t: Table, id: string, phone: string) {
    id in t && t[id].phone == phone && Locks(t[id].status)
  }

  predicate Claimable(t: Table, id: string, session: string, now: nat) {
    && id in t && t[id].session == session && t[id].status == Ready && t[id].expiresAt > now
    && !PhoneLocked(t, t[id].phone)
  }

  function Claim(t: Table, id: string, session: string, now: nat): Table {
    if Claimable(t, id, session, now) then t[id := t[id].(status := Checking, updatedAt := now)] else t
  }

  predicate Movable(t: Table, id: string, from: Status) { id in t && t[id].status == from }

  function Move(t: Table, id: string, from: Status, to: Status, now: nat): Table {
    if Movable(t, id, from) then t[id := t[id].(status := to, updatedAt := now)] else t
  }

  function Confirm(t: Table, id: string, visitAt: nat, now: nat): Table {
    if Movable(t, id, Sending) then t[id := t[id].(status := Confirmed, visitAt := visitAt, updatedAt := now)] else t
  }

  /** One batch: earlier ready drafts of the session give way to the new one. */
  function Save(t: Table, id: string, session: string, phone: string, now: nat): Table {
    (map k | k in t ::
       if t[k].session == session && t[k].status == Ready then t[k].(status := Superseded) else t[k])
    [id := Draft(session, phone, Ready, now, now + DRAFT_LIFE, now, 0)]
  }

  datatype Job = Job(state: WebReminder.JobState, dueAt: nat, expiresAt: nat, updatedAt: nat)

  type Jobs = map<string, Job>

  /** The second statement of the confirmation: one pending job, if the draft is confirmed by then. */
  function InsertReminder(jobs: Jobs, t: Table, id: string, due: Option<nat>, now: nat): Jobs {
    if due.Some? && due.value >= now + REMINDER_NOTICE && id !in jobs && id in t && t[id].status == Confirmed
    then jobs[id := Job(WebReminder.Pending, due.value, due.value + REMINDER_GRACE, now)]
    else jobs
  }

  predicate Open(job: Job, now: nat) {
    job.expiresAt > now && job.state in {WebReminder.Pending, WebReminder.Checking, WebReminder.Sending}
  }

  /** The drafts whose reminder job is still open. */
  function Busy(jobs: Jobs, now: nat): set<string> { set id | id in jobs && Open(jobs[id], now) }

  function CleanupJobs(jobs: Jobs, now: nat): Jobs {
    map id | id in jobs && jobs[id].expiresAt + KEEP >= now :: jobs[id]
  }

  /** `busy` are the drafts whose reminder job is still open. */
  predicate Disposable(d: Draft, id: string, busy: set<string>, now: nat) {
    && d.createdAt + KEEP < now && !Locks(d.status)
    && !(d.status == Confirmed && (d.visitAt > now || id in busy))
  }

  function Cleanup(t: Table, busy: set<string>, now: nat): Table {
    map k | k in t && !Disposable(t[k], k, busy, now) :: t[k]
  }

  class Store {
    var drafts: Table
    var jobs: Jobs

    constructor ()
      ensures drafts == map[] && jobs == map[]
    {
      drafts, jobs := map[], map[];
    }

    method ClaimDraft(id: string, session: string, now: nat) returns (changed: bool)
      modifies `drafts
      ensures drafts == Claim(old(drafts), id, session, now) && changed == Claimable(old(drafts), id, session, now)
    {
      changed := false;
      if id in drafts && drafts[id].session == session && drafts[id].status == Ready && drafts[id].expiresAt > now {
        var phone := drafts[id].phone;
        if !exists d | d in drafts :: drafts[d].phone == phone && Locks(drafts[d].status) {
          drafts := drafts[id := drafts[id].(status := Checking, updatedAt := now)];
          changed := true;
        }
      }
    }

    method State(id: string, from: Status, to: Status, now: nat) returns (changed: bool)
      modifies `drafts
      ensures drafts == Move(old(drafts), id, from, to, now) && changed == Movable(old(drafts), id, from)
    {
      changed := id in drafts && drafts[id].status == from;
      if changed {
        drafts := drafts[id := drafts[id].(status := to, updatedAt := now)];
      }
    }

    /** One batch: the draft is confirmed, and a reminder far enough ahead gets its job. */
    method Confirmed(id: string, visitAt: nat, due: Option<nat>, now: nat)
      modifies this
      ensures drafts == Confirm(old(drafts), id, visitAt, now)
      ensures jobs == InsertReminder(old(jobs), drafts, id, due, now)
    {
      if id in drafts && drafts[id].status == Sending {
        drafts := drafts[id := drafts[id].(status := Status.Confirmed, visitAt := visitAt, updatedAt := now)];
      }
      if due.Some? && due.value >= now + REMINDER_NOTICE {
        if id in drafts && drafts[id].status == Status.Confirmed && id !in jobs {
          jobs := jobs[id := Job(WebReminder.Pending, due.value, due.value + REMINDER_GRACE, now)];
        }
      }
    }

    /** The newest draft that locks the phone. */
    method UnresolvedPhone(phone: string) returns (found: Option<string>)
      ensures found == None <==> !PhoneLocked(drafts, phone)
      ensures found == None <==> !Unresolved(drafts, phone)
      ensures found.Some? ==>
        && found.value in drafts && drafts[found.value].phone == phone
        && drafts[found.value].status in {Checking, Sending, Uncertain}
      ensures found.Some? ==>
        forall id ::
          id in drafts && drafts[id].phone == phone && drafts[id].status in {Checking, Sending, Uncertain} ==>
            drafts[id].createdAt <= drafts[found.value].createdAt
    {
      found := None;
      var left := drafts.Keys;
      while left != {}
        invariant left <= drafts.Keys
        invariant found == None ==> forall id :: id in drafts && id !in left ==> !Locking(drafts, id, phone)
        invariant found.Some? ==> Locking(drafts, found.value, phone)
        invariant found.Some? ==>
          forall id :: id !in left && Locking(drafts, id, phone) ==>
            drafts[id].createdAt <= drafts[found.value].createdAt
        decreases |left|
      {
        var id :| id in left;
        left := left - {id};
        if drafts[id].phone == phone && Locks(drafts[id].status) {
          if found == None || drafts[found.value].createdAt < drafts[id].createdAt {
            found := Some(id);
          }
        }
      }
    }

    /** A draft is refused while the phone has an unresolved booking. */
    method SaveDraft(id: string, session: string, phone: string, now: nat) returns (saved: bool)
      modifies `drafts
      ensures saved == !PhoneLocked(old(drafts), phone)
      ensures drafts == if saved then Save(old(drafts), id, session, phone, now) else old(drafts)
    {
      var blocking := UnresolvedPhone(phone);
      if blocking.Some? {
        return false;
      }
      drafts := map k | k in drafts ::
        if drafts[k].session == session && drafts[k].status == Ready then drafts[k].(status := Superseded)
        else drafts[k];
      drafts := drafts[id := Draft(session, phone, Ready, now, now + DRAFT_LIFE, now, 0)];
      return true;
    }

    /** No lock is lost, nothing recent or still needed is lost, and what stays is unchanged. */
    method CleanupDrafts(now: nat)
      modifies this
      ensures drafts == Cleanup(old(drafts), Busy(old(jobs), now), now) && jobs == CleanupJobs(old(jobs), now)
      ensures forall phone :: PhoneLocked(drafts, phone) <==> PhoneLocked(old(drafts), phone)
      ensures
        forall id :: id in old(drafts) && id !in drafts ==>
          Expendable(old(drafts)[id], id, Busy(old(jobs), now), now)
      ensures forall id :: id in drafts ==> id in old(drafts) && drafts[id] == old(drafts)[id]
      ensures forall id :: id in old(jobs) && Open(old(jobs)[id], now) ==> id in jobs
    {
      var busy := set id | id in jobs && Open(jobs[id], now);
      CleanupKeepsLocks(drafts, busy, now);
      drafts := map k | k in drafts && !Disposable(drafts[k], k, busy, now) :: drafts[k];
      jobs := map id | id in jobs && jobs[id].expiresAt + KEEP >= now :: jobs[id];
    }
  }

  /** Over a month old, without a lock, and no confirmed visit ahead or reminder still open. */
  predicate Expendable(d: Draft, id: string, busy: set<string>, now: nat) {
    && now - d.createdAt > KEEP
    && d.status in {Ready, Confirmed, Rejected, Superseded}
    && (d.status == Confirmed ==> d.visitAt <= now && id !in busy)
  }

  /** A reminder that may still be sent belongs to a confirmed draft. */
  predicate OpenJobsHaveDrafts(t: Table, jobs: Jobs, now: nat) {
    forall id :: id in jobs && Open(jobs[id], now) ==> id in t && t[id].status == Confirmed
  }

  /** Whatever statement comes next, at its own instant. */
  lemma JobsKeepTheirDrafts(t: Table, jobs: Jobs, before: nat, now: nat, id: string, session: string, phone: string)
    requires OpenJobsHaveDrafts(t, jobs, before) && before <= now
    ensures OpenJobsHaveDrafts(Claim(t, id, session, now), jobs, now)
    ensures id !in t ==> OpenJobsHaveDrafts(Save(t, id, session, phone, now), jobs, now)
    ensures forall from, to :: from != Confirmed ==> OpenJobsHaveDrafts(Move(t, id, from, to, now), jobs, now)
    ensures forall visitAt, due ::
      var confirmed := Confirm(t, id, visitAt, now);
      OpenJobsHaveDrafts(confirmed, InsertReminder(jobs, confirmed, id, due, now), now)
    ensures OpenJobsHaveDrafts(Cleanup(t, Busy(jobs, now), now), CleanupJobs(jobs, now), now)
  {
  }

  lemma CleanupKeepsLocks(t: Table, busy: set<string>, now: nat)
    ensures forall phone :: PhoneLocked(Cleanup(t, busy, now), phone) <==> PhoneLocked(t, phone)
  {
    forall phone ensures PhoneLocked(Cleanup(t, busy, now), phone) <==> PhoneLocked(t, phone) {
      if PhoneLocked(t, phone) {
        var id :| id in t && t[id].phone == phone && Locks(t[id].status);
        assert id in Cleanup(t, busy, now) && Cleanup(t, busy, now)[id] == t[id];
      }
    }
  }

  // ---------------------------------------------------------------- what each statement promises

  /** Another draft for the phone is being checked or sent, or its result is unknown. */
  ghost predicate Unresolved(t: Table, phone: string) {
    exists id :: id in t && t[id].phone == phone && t[id].status in {Checking, Sending, Uncertain}
  }

  /** Only the draft changes, and of it only these. */
  predicate OnlyMoved(t: Table, u: Table, id: string, now: nat) {
    id in t && id in u && u == t[id := u[id]] && u[id].updatedAt == now
    && u[id] == t[id].(status := u[id].status, visitAt := u[id].visitAt, updatedAt := now)
  }

  /** A ready draft is claimed by its own session within fifteen minutes, unless its phone is unresolved. */
  lemma ClaimedExactly(t: Table, id: string, session: string, now: nat)
    ensures
      var mine := id in t && t[id].session == session && t[id].status == Ready && now < t[id].expiresAt;
      var u := Claim(t, id, session, now);
      && (Claimable(t, id, session, now) <==> mine && !Unresolved(t, t[id].phone))
      && (Claimable(t, id, session, now) ==>
            OnlyMoved(t, u, id, now) && u[id].status == Checking && u[id].visitAt == t[id].visitAt)
      && (!Claimable(t, id, session, now) ==> u == t)
  {
  }

  lemma MovedExactly(t: Table, id: string, from: Status, to: Status, now: nat)
    ensures
      var u := Move(t, id, from, to, now);
      && (Movable(t, id, from) <==> id in t && t[id].status == from)
      && (Movable(t, id, from) ==>
            OnlyMoved(t, u, id, now) && u[id].status == to && u[id].visitAt == t[id].visitAt)
      && (!Movable(t, id, from) ==> u == t)
  {
  }

  lemma ConfirmedExactly(t: Table, id: string, visitAt: nat, now: nat)
    ensures
      var u := Confirm(t, id, visitAt, now);
      if id in t && t[id].status == Sending
      then OnlyMoved(t, u, id, now) && u[id].status == Confirmed && u[id].visitAt == visitAt
      else u == t
  {
  }

  /** The new draft is good for fifteen minutes, and the session's other ready drafts give way to it. */
  lemma SavedExactly(t: Table, id: string, session: string, phone: string, now: nat, other: string)
    ensures
      var u := Save(t, id, session, phone, now);
      && id in u && u[id].session == session && u[id].phone == phone && u[id].status == Ready
      && u[id].createdAt == now && u[id].updatedAt == now && u[id].expiresAt == now + 900 && u[id].visitAt == 0
      && (other != id ==>
            && (other in u <==> other in t)
            && (other in t ==>
                  u[other] == if t[other].session == session && t[other].status == Ready
                              then t[other].(status := Superseded) else t[other]))
  {
  }

  /**
   A confirmed draft gets one job for a reminder at least five minutes ahead, which is open for a quarter of
   an hour.
   */
  lemma RemindedExactly(jobs: Jobs, t: Table, id: string, due: Option<nat>, now: nat)
    ensures
      var after := InsertReminder(jobs, t, id, due, now);
      if due.Some? && now + 300 <= due.value && id !in jobs && id in t && t[id].status == Confirmed
      then
        && after == jobs[id := after[id]]
        && after[id] == Job(WebReminder.Pending, due.value, due.value + 900, now)
      else after == jobs
  {
  }

  /** A job that is not done or skipped and has not run out keeps its draft. */
  predicate StillToSend(jobs: Jobs, id: string, now: nat) {
    && id in jobs && now < jobs[id].expiresAt
    && jobs[id].state != WebReminder.Done && jobs[id].state != WebReminder.Skipped
  }

  /**
   A draft goes exactly if it is over a month old and nothing about it is open; its job goes a month after it
   ran out.
   */
  lemma CleanedExactly(t: Table, jobs: Jobs, now: nat, id: string)
    ensures
      var u, left := Cleanup(t, Busy(jobs, now), now), CleanupJobs(jobs, now);
      && (id in u <==>
            id in t && (
              || now <= t[id].createdAt + 30 * 86400
              || t[id].status in {Checking, Sending, Uncertain}
              || (t[id].status == Confirmed && (now < t[id].visitAt || StillToSend(jobs, id, now)))))
      && (id in u ==> u[id] == t[id])
      && (id in left <==> id in jobs && now <= jobs[id].expiresAt + 30 * 86400)
      && (id in left ==> left[id] == jobs[id])
  {
  }
}
