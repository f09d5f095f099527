/**
 The stored rows and the transactions that rewrite them in place.

 `OutboxRows` says what each transaction means; here it is carried out on the store, and
 `DeliverTargets` drives one worker through its targets.
 */
module OutboxRepository {
  import opened Options
  import opened OutboxRows

  /** Keys are hashes of these; the hash is taken to be injective. */
  datatype Key = EventKey(id: string) | RecordKey(record: string) | DeliveryKey(owner: string, id: string)

  type Table = map<Key, Entry>

  function Fetch(rows: Table, key: Key): Entry { if key in rows then rows[key] else BLANK }

  /** One reopening per listed event. */
  function ReopenAll(rows: Table, ids: seq<string>, now: Time): Table {
    if ids == [] then rows
    else
      var key := EventKey(ids[|ids| - 1]);
      var before := ReopenAll(rows, ids[..|ids| - 1], now);
      before[key := Reopen(Fetch(before, key), now)]
  }

  /** A listed event is reopened once however often it is listed, and no other row changes. */
  lemma {:induction false} ReopenAllAt(rows: Table, ids: seq<string>, now: Time, key: Key)
    ensures Fetch(ReopenAll(rows, ids, now), key) ==
            if key.EventKey? && key.id in ids then Reopen(Fetch(rows, key), now) else Fetch(rows, key)
  {
    if ids != [] {
      ReopenAllAt(rows, ids[..|ids| - 1], now, key);
      assert ids == ids[..|ids| - 1] + [ids[|ids| - 1]];
    }
  }

  /** Exactly the events that are reopened, however often they are listed. */
  ghost predicate Listed(rows: Table, ids: seq<string>, now: Time, ready: seq<string>) {
    forall id :: id in ready <==> id in ids && Reopenable(Fetch(rows, EventKey(id)), now)
  }

  lemma ListedNext(rows: Table, ids: seq<string>, i: nat, now: Time, ready: seq<string>)
    requires i < |ids| && Listed(rows, ids[..i], now, ready)
    ensures
      var before := ReopenAll(rows, ids[..i], now);
      var row := Fetch(before, EventKey(ids[i]));
      && ReopenAll(rows, ids[..i + 1], now) == before[EventKey(ids[i]) := Reopen(row, now)]
      && Listed(rows, ids[..i + 1], now, if Reopenable(row, now) then ready + [ids[i]] else ready)
  {
    assert ids[..i + 1] == ids[..i] + [ids[i]];
    assert ids[..i + 1][..i] == ids[..i];
    ReopenAllAt(rows, ids[..i], now, EventKey(ids[i]));
  }

  /** What each provider would answer. */
  type Answers = Route -> Answer

  /**
   The routes one undisturbed worker calls from target `i` on: targets are taken in order, attempted
   ones are passed over unless they are the last, and the first answer that is not a refusal ends it.
   */
  function Tried(attempted: seq<Route>, targets: seq<Route>, i: nat, answers: Answers): seq<Route>
    decreases |targets| - i
  {
    if i >= |targets| then []
    else if targets[i] in attempted then Tried(attempted, targets, i + 1, answers)
    else if answers(targets[i]) != Refused then [targets[i]]
    else [targets[i]] + Tried(attempted + [targets[i]], targets, i + 1, answers)
  }

  /** Nothing is called twice or after a success, and only a success can leave an untried target behind. */
  ghost predicate StopsAtSuccess(attempted: seq<Route>, targets: seq<Route>, i: nat, answers: Answers,
                                 calls: seq<Route>)
  {
    && (forall k :: 0 <= k < |calls| ==> calls[k] in targets && calls[k] !in attempted)
    && (forall j, k :: 0 <= j < k < |calls| ==> calls[j] != calls[k])
    && (forall k :: 0 <= k < |calls| - 1 ==> answers(calls[k]) == Refused)
    && (calls == [] || answers(calls[|calls| - 1]) == Refused ==>
          forall k :: i <= k < |targets| ==> targets[k] in attempted || targets[k] in calls)
  }

  lemma RefusedFirst(attempted: seq<Route>, targets: seq<Route>, i: nat, answers: Answers, calls: seq<Route>)
    requires i < |targets| && targets[i] !in attempted && answers(targets[i]) == Refused
    requires StopsAtSuccess(attempted + [targets[i]], targets, i + 1, answers, calls)
    ensures StopsAtSuccess(attempted, targets, i, answers, [targets[i]] + calls)
  {
  }

  lemma {:induction false} TriedStopsAtSuccess(attempted: seq<Route>, targets: seq<Route>, i: nat,
                                               answers: Answers)
    ensures StopsAtSuccess(attempted, targets, i, answers, Tried(attempted, targets, i, answers))
    decreases |targets| - i
  {
    if i < |targets| {
      if targets[i] in attempted {
        TriedStopsAtSuccess(attempted, targets, i + 1, answers);
      } else if answers(targets[i]) == Refused {
        TriedStopsAtSuccess(attempted + [targets[i]], targets, i + 1, answers);
        var rest := Tried(attempted + [targets[i]], targets, i + 1, answers);
        RefusedFirst(attempted, targets, i, answers, rest);
      }
    }
  }

  class Repository {
    var rows: Table

    constructor ()
      ensures rows == map[]
    {
      rows := map[];
    }

    function Row(key: Key): (e: Entry)
      reads this
    {
      Fetch(rows, key)
    }

    method IngestEvent(e: Event, now: Time)
      modifies this
      ensures rows == old(rows)[EventKey(e.id) := Ingest(old(Row(EventKey(e.id))), e.(receivedAt := now))]
    {
      var key := EventKey(e.id);
      var row := Row(key);
      if row.kind == NoKind {
        row := BLANK.(kind := EventRow, state := Pending, event := e.(receivedAt := now));
      }
      rows := rows[key := row];
    }

    /** The identity is a function of the reminder, so a repeated handoff finds the row it made. */
    method QueueWebReminder(e: Event, notice: Notice)
      modifies this
      ensures rows == old(rows)[EventKey(e.id) := QueueReminder(old(Row(EventKey(e.id))), e, notice)]
    {
      var row := Row(EventKey(e.id));
      if row.kind == NoKind {
        row := BLANK.(kind := EventRow, state := Prepared, event := e, notice := Some(notice));
      }
      rows := rows[EventKey(e.id) := row];
    }

    method TakeLease(id: string, owner: Owner, now: Time) returns (r: ClaimResult)
      modifies this
      ensures r == Claim(old(Row(EventKey(id))), owner, now)
      ensures rows == if r.Busy? then old(rows)
                      else old(rows)[EventKey(id) := if r.Leased? then r.row else old(Row(EventKey(id)))]
    {
      var row := Row(EventKey(id));
      if row.kind != EventRow || row.state == Done {
        r := Nothing;
      } else {
        if row.leaseUntil > now {
          return Busy;
        }
        row := row.(leaseOwner := owner);
        row := row.(leaseUntil := now + DELIVER_LEASE);
        r := Leased(row);
      }
      rows := rows[EventKey(id) := row];
    }

    method ReleaseLease(id: string, owner: Owner)
      modifies this
      ensures rows == old(rows)[EventKey(id) := Release(old(Row(EventKey(id))), owner)]
    {
      var row := Row(EventKey(id));
      if row.leaseOwner == owner {
        row := row.(leaseUntil := 0);
      }
      rows := rows[EventKey(id) := row];
    }

    method PrepareNotice(id: string, recordId: string, owner: Owner, snap: Snapshot, assistantOwned: bool,
                         activatedAt: Time, now: Time) returns (busy: bool)
      modifies this
      ensures
        var e, record := old(Row(EventKey(id))), old(Row(RecordKey(recordId)));
        var r := Prepare(e, record, owner, snap, assistantOwned, activatedAt, now);
        && busy == (r == None)
        && rows == if busy then old(rows) else old(rows)[EventKey(id) := r.value.0][RecordKey(recordId) := r.value.1]
    {
      var event, record := Row(EventKey(id)), Row(RecordKey(recordId));
      if event.leaseOwner != owner {
        return true;
      }
      if record.fingerprint == Some(snap.version) || (record.changedAt != 0 && snap.changedAt < record.changedAt) {
        event := event.(state := Done, outcome := DuplicateOrStale);
      } else {
        var first := record.kind == NoKind;
        var purpose := BookingChanged;
        if first {
          purpose := BookingCreated;
        }
        if snap.version.status == Cancelled {
          purpose := BookingCancelled;
        }
        record := BLANK.(kind := RecordRow, fingerprint := Some(snap.version), changedAt := snap.changedAt);
        event := event.(notice := Some(Notice(event.event.id, snap, purpose, snap.version)));
        event := event.(state := Prepared);
        if assistantOwned || (first && (snap.createdAt == 0 || snap.createdAt < activatedAt))
           || (snap.version.status != Cancelled && snap.version.start <= now) {
          event := event.(state := Done, outcome := ExistingOrAssistantBooking);
        }
      }
      rows := rows[EventKey(id) := event][RecordKey(recordId) := record];
      return false;
    }

    /** The durable send intent. */
    method CommitIntent(key: Key, route: Route) returns (send: bool, alreadyRejected: bool, prior: Outcome)
      modifies this
      ensures IntentResult(Row(key), send, alreadyRejected, prior) == Intent(old(Row(key)), route)
      ensures rows == old(rows)[key := Row(key)]
    {
      var attempt := Row(key);
      send, alreadyRejected, prior := false, false, attempt.outcome;
      if attempt.state != Sending && attempt.state != Done {
        var i := 0;
        while i < |attempt.attempted| && !alreadyRejected
          invariant 0 <= i <= |attempt.attempted|
          invariant alreadyRejected <==> route in attempt.attempted[..i]
        {
          if attempt.attempted[i] == route {
            alreadyRejected := true;
          }
          i := i + 1;
        }
        if !alreadyRejected {
          attempt := attempt.(kind := DeliveryRow, state := Sending, outcome := Uncertain(route));
          attempt := attempt.(attempted := attempt.attempted + [route]);
          send := true;
        }
      }
      rows := rows[key := attempt];
    }

    method RecordVerdict(key: Key, route: Route, answer: Answer) returns (outcome: Outcome)
      modifies this
      ensures outcome == OutcomeOf(route, answer)
      ensures rows == old(rows)[key := Verdict(old(Row(key)), route, answer)]
    {
      outcome := Accepted(route);
      if answer != Taken {
        outcome := Uncertain(route);
        if answer == Refused {
          outcome := Rejected(route);
        }
      }
      var row := Row(key).(state := Done);
      if answer == Refused {
        row := row.(state := RetryableRejection);
      }
      rows := rows[key := row.(outcome := outcome)];
    }

    method FinishEvent(id: string, delivery: Key, owner: Owner, outcome: Outcome, withDelivery: bool)
      returns (busy: bool)
      requires delivery.DeliveryKey?
      modifies this
      ensures
        var r := Finish(old(Row(EventKey(id))), old(Row(delivery)), owner, outcome, withDelivery);
        && busy == (r == None)
        && rows == if busy then old(rows)
                   else if withDelivery then old(rows)[EventKey(id) := r.value.0][delivery := r.value.1]
                   else old(rows)[EventKey(id) := r.value.0]
    {
      var row := Row(EventKey(id));
      if row.leaseOwner != owner {
        return true;
      }
      row := row.(state := Done, outcome := outcome);
      if withDelivery {
        var (e, d) := Fallback(row, Row(delivery));
        rows := rows[EventKey(id) := e][delivery := d];
      } else {
        rows := rows[EventKey(id) := row];
      }
      return false;
    }

    method ResumeFailedWhatsApp(id: string, delivery: Key, now: Time) returns (busy: bool)
      requires delivery.DeliveryKey?
      modifies this
      ensures
        var r := Resume(old(Row(EventKey(id))), old(Row(delivery)), now);
        && busy == (r == None)
        && rows == if busy then old(rows) else old(rows)[EventKey(id) := r.value.0][delivery := r.value.1]
    {
      var event, row := Row(EventKey(id)), Row(delivery);
      if event.leaseUntil > now {
        if row.report == ReceiptFailed && WhatsAppOpen(row.outcome) {
          return true;
        }
      } else {
        var (e, d) := Fallback(event, row);
        event, row := e, d;
      }
      rows := rows[EventKey(id) := event][delivery := row];
      return false;
    }

    method WhatsAppStatus(id: string, delivery: Key, report: Report) returns (failed: bool)
      requires delivery.DeliveryKey? && IsReceipt(report)
      modifies this
      ensures
        var (e, d) := Receipt(old(Row(EventKey(id))), old(Row(delivery)), report);
        rows == old(rows)[EventKey(id) := e][delivery := d]
      ensures failed <==>
        && WhatsApp in old(Row(delivery)).attempted && !Outranked(old(Row(delivery)).report, report)
        && report == ReceiptFailed
    {
      var event, row := Row(EventKey(id)), Row(delivery);
      failed := false;
      var attempted := false;
      for i := 0 to |row.attempted|
        invariant attempted <==> WhatsApp in row.attempted[..i]
      {
        if row.attempted[i] == WhatsApp {
          attempted := true;
        }
      }
      if attempted && !Outranked(row.report, report) {
        row := row.(report := report);
        failed := report == ReceiptFailed;
        if failed {
          var (e, d) := Fallback(event, row);
          event, row := e, d;
        } else if report != ReceiptSent && row.state == RetryableRejection && row.outcome == Rejected(WhatsApp) {
          row := row.(state := Done, outcome := Accepted(WhatsApp));
          if event.state == Prepared {
            event := event.(state := Done, outcome := Accepted(WhatsApp));
          }
        }
      }
      rows := rows[EventKey(id) := event][delivery := row];
    }

    /** Every listed event is looked at in its own transaction. */
    method ReconcileUnrouted(ids: seq<string>, now: Time) returns (ready: seq<string>)
      modifies this
      ensures rows == ReopenAll(old(rows), ids, now)
      ensures forall id :: id in ready <==> id in ids && Reopenable(old(Row(EventKey(id))), now)
    {
      ready := [];
      for i := 0 to |ids|
        invariant rows == ReopenAll(old(rows), ids[..i], now)
        invariant Listed(old(rows), ids[..i], now, ready)
      {
        ListedNext(old(rows), ids, i, now, ready);
        var key := EventKey(ids[i]);
        var row := Row(key);
        if Reopenable(row, now) {
          row := row.(state := Prepared, outcome := NoOutcome);
          ready := ready + [ids[i]];
        }
        rows := rows[key := row];
      }
      assert ids[..|ids|] == ids;
    }

    method ClaimSmsCheck(id: string, owner: Owner, now: Time, alerts: bool) returns (claimed: bool, alertOnly: bool)
      modifies this
      ensures
        SmsClaimResult(Row(EventKey(id)), claimed, alertOnly) == SmsClaim(old(Row(EventKey(id))), owner, now, alerts)
      ensures rows == old(rows)[EventKey(id) := Row(EventKey(id))]
    {
      var row := Row(EventKey(id));
      claimed, alertOnly := false, false;
      if AwaitingSms(row) && row.leaseUntil <= now && row.nextLookupAt <= now {
        row := row.(leaseOwner := owner, leaseUntil := now + SMS_LEASE);
        row := row.(nextLookupAt := now + SMS_PACE);
        if row.outcome == SmsAlertRetryable {
          row := row.(leaseOwner := 0, leaseUntil := 0);
          if alerts {
            row := row.(outcome := SmsFailureOutcome(row.report), alertedAt := now);
            claimed, alertOnly := true, true;
          }
        } else {
          claimed := true;
        }
      }
      rows := rows[EventKey(id) := row];
    }

    /** A state the reader does not know discards the transaction. */
    method RecordSmsStatus(id: string, owner: Owner, now: Time, reading: Reading, alerts: bool) returns (alert: bool)
      modifies this
      ensures
        var r := SmsVerdict(old(Row(EventKey(id))), owner, now, reading, alerts);
        alert == r.alert && forall k :: Fetch(rows, k) == if k == EventKey(id) then r.row else old(Fetch(rows, k))
    {
      var row := Row(EventKey(id));
      alert := false;
      if row.leaseOwner != owner || !AwaitingSms(row) || reading.Unrecognised? {
        return;
      }
      row := row.(leaseOwner := 0, leaseUntil := 0);
      var expired := row.event.receivedAt != 0 && now >= row.event.receivedAt + SMS_WATCH;
      if reading.Unreadable? {
        if expired {
          row := row.(outcome := UnconfirmedSms);
        }
      } else if reading.report in {SmsPending, SmsProcessed, SmsSent, SmsCancelling, SmsDelivered} {
        row := row.(report := reading.report);
        if expired {
          row := row.(outcome := UnconfirmedSms);
          if reading.report == SmsDelivered {
            row := row.(outcome := DeliveredSms);
          }
        }
      } else if reading.report in {SmsFailed, SmsCancelled} {
        row := row.(report := reading.report, outcome := FailedSms);
        if reading.report == SmsCancelled {
          row := row.(outcome := CancelledSms);
        }
        if row.alertedAt == 0 && alerts {
          row := row.(alertedAt := now);
          alert := true;
        }
      } else {
        return;
      }
      rows := rows[EventKey(id) := row];
    }

    method ReleaseAlert(id: string, reservedAt: Time)
      modifies this
      ensures rows == old(rows)[EventKey(id) := AlertRefused(old(Row(EventKey(id))), reservedAt)]
    {
      var row := Row(EventKey(id));
      if row.alertedAt == reservedAt && (row.outcome == FailedSms || row.outcome == CancelledSms) {
        row := row.(outcome := SmsAlertRetryable);
        row := row.(alertedAt := 0);
      }
      rows := rows[EventKey(id) := row];
    }

    /** One target of the loop: intent, call and verdict; `again` says that a further target may be tried. */
    method TryTarget(key: Key, target: Route, answer: Answer) returns (called: bool, again: bool, verdict: Outcome)
      modifies this
      ensures SameElsewhere(old(rows), rows, key)
      ensures called <==> Untried(old(Row(key)), target)
      ensures again <==> GoesOn(old(Row(key)), target, answer)
      ensures TargetDone(old(Row(key)), Row(key), target, answer, verdict)
    {
      var prior;
      called, again, prior := CommitIntent(key, target);
      if called {
        verdict := RecordVerdict(key, target, answer);
        again := answer == Refused;
      } else {
        verdict := if prior == NoOutcome then AlreadyAttemptedOrUncertain else prior;
      }
    }

    /**
     One worker, alone, from its planned targets to the end of the loop.  `calls` are the routes
     handed to the provider, `verdict` is what the worker finishes the event with.
     */
    method DeliverTargets(key: Key, targets: seq<Route>, answers: Answers)
      returns (calls: seq<Route>, verdict: Outcome)
      modifies this
      ensures calls == Expected(old(Row(key)), targets, answers)
      ensures Row(key).attempted == old(Row(key)).attempted + calls
      ensures Row(key).outcome ==
              if calls == [] then old(Row(key)).outcome
              else OutcomeOf(calls[|calls| - 1], answers(calls[|calls| - 1]))
      ensures calls == [] ==> Row(key) == old(Row(key))
      ensures targets != [] ==> verdict == FinishOutcome(Row(key))
      ensures SameElsewhere(old(rows), rows, key)
    {
      calls, verdict := [], NoOutcome;
      for i := 0 to |targets|
        invariant targets != [] ==> i < |targets|
        invariant Progress(old(Row(key)), Row(key), calls, targets, i, answers)
        invariant SameElsewhere(old(rows), rows, key)
      {
        ghost var before, start := Row(key), old(Row(key));
        var called, again;
        called, again, verdict := TryTarget(key, targets[i], answers(targets[i]));
        OneTarget(start, before, Row(key), calls, targets, i, answers, verdict);
        if called {
          calls := calls + [targets[i]];
        }
        if i == |targets| - 1 || !again {
          return;
        }
      }
    }
  }

  ghost predicate SameElsewhere(before: Table, after: Table, key: Key) {
    forall k :: k != key ==> Fetch(after, k) == Fetch(before, k)
  }

  /** What a worker finishes with, given the row its last target left. */
  function FinishOutcome(row: Entry): Outcome {
    if row.outcome == NoOutcome then AlreadyAttemptedOrUncertain else row.outcome
  }

  predicate Untried(row: Entry, target: Route) { row.state !in {Sending, Done} && target !in row.attempted }

  predicate GoesOn(row: Entry, target: Route, answer: Answer) {
    row.state !in {Sending, Done} && (target in row.attempted || answer == Refused)
  }

  /** What one target does to the delivery row. */
  ghost predicate TargetDone(before: Entry, row: Entry, target: Route, answer: Answer, verdict: Outcome) {
    && verdict == FinishOutcome(row)
    && if Untried(before, target) then
         && row.outcome == OutcomeOf(target, answer) && row.attempted == before.attempted + [target]
         && row.state == if answer == Refused then RetryableRejection else Done
       else row == before
  }

  /** What an undisturbed worker calls, given the row it finds. */
  function Expected(start: Entry, targets: seq<Route>, answers: Answers): seq<Route> {
    if start.state in {Sending, Done} then [] else Tried(start.attempted, targets, 0, answers)
  }

  ghost predicate Noted(start: Entry, row: Entry, calls: seq<Route>, answers: Answers) {
    && row.attempted == start.attempted + calls
    && (calls == [] ==> row == start)
    && (calls != [] ==> row.outcome == OutcomeOf(calls[|calls| - 1], answers(calls[|calls| - 1])))
  }

  ghost predicate Progress(start: Entry, row: Entry, calls: seq<Route>, targets: seq<Route>, i: nat,
                           answers: Answers)
    requires i <= |targets|
  {
    && Noted(start, row, calls, answers)
    && if start.state in {Sending, Done} then i == 0 && calls == [] && row == start
       else
         && row.state !in {Sending, Done}
         && Expected(start, targets, answers) == calls + Tried(row.attempted, targets, i, answers)
  }

  /** After target `i` either the loop is over and every expected call was made, or the next target is up. */
  lemma OneTarget(start: Entry, before: Entry, row: Entry, calls: seq<Route>, targets: seq<Route>, i: nat,
                  answers: Answers, verdict: Outcome)
    requires i < |targets| && Progress(start, before, calls, targets, i, answers)
    requires TargetDone(before, row, targets[i], answers(targets[i]), verdict)
    ensures
      var t := targets[i];
      var calls' := if Untried(before, t) then calls + [t] else calls;
      if i == |targets| - 1 || !GoesOn(before, t, answers(t))
      then calls' == Expected(start, targets, answers) && Noted(start, row, calls', answers)
      else Progress(start, row, calls', targets, i + 1, answers)
  {
  }
}
