/**
 Concrete runs of the outbox: both ways a WhatsApp failure is lost, and what can happen once a
 worker outlives its lease.
 */
module OutboxWitnesses {
  import opened Options
  import opened OutboxRows
  import opened OutboxMachine
  import opened OutboxFinality
  import opened OutboxWorld
  import opened OutboxLateFailure
  import opened OutboxLateRuns
  import opened OutboxLostRefusals

  const ID: string := "event"

  function Visit(): Snapshot {
    Snapshot(Version("+374", "staff", Confirmed, ["service"], 100000, 3600), 1, 1, "", false)
  }

  function Incoming(): Event { Event(ID, "record", 1) }

  function Reminder(): Notice { Notice(ID, Visit(), BookingReminder, Visit().version) }

  /** A run from nothing stored, the instant it ends at and the cell it leaves. */
  ghost predicate Reaches(moves: seq<Move>, now: Time, c: Cell) {
    Run(Start(1), moves).now == now && CellOf(Run(Start(1), moves), ID) == c
  }

  lemma RecordIsNotRead(c: Cell, rec: Entry, now: Time, step: Step)
    requires step.WorkerStep? ==> !step.action.DoPrepare?
    ensures Do(c, rec, now, step).0 == Do(c, BLANK, now, step).0
  {
  }

  function Next(c: Cell, now: Time, step: Step): Cell { Do(c, BLANK, now, step).0 }

  lemma Extend(moves: seq<Move>, now: Time, c: Cell, step: Step)
    requires Reaches(moves, now, c) && Addressed(ID, step) && (step.WorkerStep? ==> !step.action.DoPrepare?)
    ensures Reaches(moves + [On(ID, step)], now, Next(c, now, step))
    ensures TimelyRun(Start(1), moves) && TimelyStep(c, now, step) ==> TimelyRun(Start(1), moves + [On(ID, step)])
  {
    var longer := moves + [On(ID, step)];
    assert longer[..|longer| - 1] == moves;
    var g := Run(Start(1), moves);
    TurnCell(g, ID, step, ID);
    RecordIsNotRead(c, RecordOf(g, c.shared.event.event.recordId).row, now, step);
  }

  lemma ExtendTime(moves: seq<Move>, now: Time, c: Cell, seconds: nat)
    requires Reaches(moves, now, c)
    ensures Reaches(moves + [Pass(seconds)], now + seconds, c)
    ensures TimelyRun(Start(1), moves) ==> TimelyRun(Start(1), moves + [Pass(seconds)])
  {
    var longer := moves + [Pass(seconds)];
    assert longer[..|longer| - 1] == moves;
  }

  ghost predicate NoVerdict(moves: seq<Move>) {
    forall i :: 0 <= i < |moves| && moves[i].On? && moves[i].step.WorkerStep? ==> !moves[i].step.action.DoVerdict?
  }

  /** A timely run without any verdict. */
  ghost predicate Plain(moves: seq<Move>) { TimelyRun(Start(1), moves) && NoVerdict(moves) }

  lemma Play(moves: seq<Move>, now: Time, c: Cell, step: Step) returns (longer: seq<Move>, d: Cell)
    requires Reaches(moves, now, c) && Addressed(ID, step)
    requires step.WorkerStep? ==> !step.action.DoPrepare?
    ensures longer == moves + [On(ID, step)] && d == Next(c, now, step) && Reaches(longer, now, d)
    ensures Plain(moves) && TimelyStep(c, now, step) && (step.WorkerStep? ==> !step.action.DoVerdict?) ==> Plain(longer)
  {
    longer, d := moves + [On(ID, step)], Next(c, now, step);
    Extend(moves, now, c, step);
  }

  // ---------------------------------------------------------------- single steps

  /** The event row once worker `owner` has leased it. */
  function Told(owner: Owner, until: Time): Entry {
    BLANK.(kind := EventRow, state := Prepared, event := Incoming(), notice := Some(Reminder()),
           leaseOwner := owner, leaseUntil := until)
  }

  /** The delivery row after the intent to send over WhatsApp. */
  function Sent(): Entry {
    BLANK.(kind := DeliveryRow, state := Sending, outcome := Uncertain(WhatsApp), attempted := [WhatsApp])
  }

  /** Where worker `w` stands, and since when. */
  predicate Stands(c: Cell, w: Owner, pc: Pc, began: Time) {
    w in c.workers && c.workers[w].pc == pc && c.workers[w].began == began
  }

  /** Nobody but `w` moved, and no call was made. */
  ghost predicate Others(c: Cell, d: Cell, w: Owner) {
    && d.workers.Keys == c.workers.Keys + {w}
    && (forall v :: v in c.workers && v != w ==> d.workers[v] == c.workers[v])
    && d.shared.history.refused == c.shared.history.refused
  }

  lemma PlayStart(moves: seq<Move>, now: Time, c: Cell, w: Owner) returns (longer: seq<Move>, d: Cell)
    requires Reaches(moves, now, c) && w != 0 && w !in c.workers && c.shared.event.kind == EventRow
    ensures Reaches(longer, now, d) && (Plain(moves) ==> Plain(longer))
    ensures Stands(d, w, AtResume, now) && Others(c, d, w) && d.shared == c.shared
  {
    longer, d := Play(moves, now, c, StartStep(w, false));
  }

  lemma PlayResume(moves: seq<Move>, now: Time, c: Cell, w: Owner) returns (longer: seq<Move>, d: Cell)
    requires Reaches(moves, now, c) && Stands(c, w, AtResume, now)
    requires c.shared.event.leaseUntil <= now
    requires !(c.shared.delivery.report == ReceiptFailed && WhatsAppOpen(c.shared.delivery.outcome))
    ensures Reaches(longer, now, d) && (Plain(moves) ==> Plain(longer))
    ensures Stands(d, w, AtClaim, now) && Others(c, d, w) && d.shared == c.shared
  {
    var m1, c1 := Play(moves, now, c, WorkerStep(w, DoResume));
    longer, d := Play(m1, now, c1, WorkerStep(w, DoBegin));
  }

  lemma PlayClaim(moves: seq<Move>, now: Time, c: Cell, w: Owner, owner: Owner, until: Time)
    returns (longer: seq<Move>, d: Cell)
    requires Reaches(moves, now, c) && Stands(c, w, AtClaim, now)
    requires c.shared.event == Told(owner, until) && until <= now
    ensures Reaches(longer, now, d) && (Plain(moves) ==> Plain(longer))
    ensures Stands(d, w, AtPlan, now) && d.workers[w].notice == Some(Reminder()) && Others(c, d, w)
    ensures d.shared.event == Told(w, now + 120) && d.shared.delivery == c.shared.delivery
  {
    longer, d := Play(moves, now, c, WorkerStep(w, DoClaim));
  }

  lemma PlayPlan(moves: seq<Move>, now: Time, c: Cell, w: Owner, routes: seq<Route>)
    returns (longer: seq<Move>, d: Cell)
    requires Reaches(moves, now, c) && Stands(c, w, AtPlan, now) && c.workers[w].notice == Some(Reminder())
    requires c.shared.event == Told(w, now + 120) && now <= 901 && routes != []
    ensures Reaches(longer, now, d) && (Plain(moves) ==> Plain(longer))
    ensures Stands(d, w, AtIntent(routes), now) && Others(c, d, w) && d.shared == c.shared
    ensures d.workers[w].notice == Some(Reminder()) && d.workers[w].read.Some?
  {
    longer, d := Play(moves, now, c, WorkerStep(w, DoPlan(Visit(), Targets(routes))));
  }

  /** From start to plan. */
  lemma PlayUpToPlan(moves: seq<Move>, now: Time, c: Cell, w: Owner, owner: Owner, until: Time, routes: seq<Route>)
    returns (longer: seq<Move>, d: Cell)
    requires Reaches(moves, now, c) && w != 0 && w !in c.workers && c.shared.event == Told(owner, until)
    requires until <= now <= 901 && routes != []
    requires !(c.shared.delivery.report == ReceiptFailed && WhatsAppOpen(c.shared.delivery.outcome))
    ensures Reaches(longer, now, d) && (Plain(moves) ==> Plain(longer))
    ensures Stands(d, w, AtIntent(routes), now) && Others(c, d, w)
    ensures d.workers[w].notice == Some(Reminder()) && d.workers[w].read.Some?
    ensures d.shared.event == Told(w, now + 120) && d.shared.delivery == c.shared.delivery
  {
    var m1, c1 := PlayStart(moves, now, c, w);
    var m2, c2 := PlayResume(m1, now, c1, w);
    var m3, c3 := PlayClaim(m2, now, c2, w, owner, until);
    longer, d := PlayPlan(m3, now, c3, w, routes);
  }

  lemma PlayQueue() returns (moves: seq<Move>, c: Cell)
    ensures Reaches(moves, 1, c) && Plain(moves)
    ensures c.shared.event == Told(0, 0) && c.shared.delivery == BLANK
    ensures c.shared.history.refused == {} && c.workers == map[]
  {
    assert Reaches([], 1, EMPTY) && Plain([]);
    moves, c := Play([], 1, EMPTY, QueueReminderStep(Incoming(), Reminder()));
  }

  lemma PlayIntent(moves: seq<Move>, now: Time, c: Cell, w: Owner, routes: seq<Route>, began: Time)
    returns (longer: seq<Move>, d: Cell)
    requires Reaches(moves, now, c) && Stands(c, w, AtIntent(routes), began) && routes != []
    requires c.shared.delivery.state !in {Sending, Done} && routes[0] !in c.shared.delivery.attempted
    ensures Reaches(longer, now, d) && (Plain(moves) && now < began + 120 ==> Plain(longer))
    ensures Stands(d, w, AtSend(routes), began) && Others(c, d, w)
    ensures d.workers[w].notice == c.workers[w].notice && d.workers[w].read == c.workers[w].read
    ensures d.shared.event == c.shared.event
    ensures
      var attempted := c.shared.delivery.attempted + [routes[0]];
      d.shared.delivery == c.shared.delivery.(
        kind := DeliveryRow, state := Sending, outcome := Uncertain(routes[0]), attempted := attempted)
  {
    longer, d := Play(moves, now, c, WorkerStep(w, DoIntent));
  }

  lemma PlaySend(moves: seq<Move>, now: Time, c: Cell, w: Owner, routes: seq<Route>, began: Time, answer: Answer)
    returns (longer: seq<Move>, d: Cell)
    requires Reaches(moves, now, c) && Stands(c, w, AtSend(routes), began) && routes != []
    requires c.workers[w].notice.Some? && c.workers[w].read.Some?
    ensures Reaches(longer, now, d) && (Plain(moves) && now < began + 120 ==> Plain(longer))
    ensures Stands(d, w, AtVerdict(routes, answer), began) && d.workers.Keys == c.workers.Keys
    ensures forall v :: v in c.workers && v != w ==> d.workers[v] == c.workers[v]
    ensures d.shared.event == c.shared.event && d.shared.delivery == c.shared.delivery
    ensures d.shared.history.refused == c.shared.history.refused + if answer == Refused then {routes[0]} else {}
  {
    longer, d := Play(moves, now, c, WorkerStep(w, DoSend(answer)));
  }

  lemma PlayVerdict(moves: seq<Move>, now: Time, c: Cell, w: Owner, routes: seq<Route>, began: Time, answer: Answer)
    returns (longer: seq<Move>, d: Cell)
    requires Reaches(moves, now, c) && Stands(c, w, AtVerdict(routes, answer), began) && routes != []
    ensures longer == moves + [On(ID, WorkerStep(w, DoVerdict))] && Reaches(longer, now, d)
    ensures TimelyRun(Start(1), moves) && now < began + 120 ==> TimelyRun(Start(1), longer)
    ensures d.shared.event == c.shared.event && d.shared.delivery == Verdict(c.shared.delivery, routes[0], answer)
    ensures Others(c, d, w)
    ensures Stands(d, w, if answer != Refused || |routes| == 1 then AtFinish(OutcomeOf(routes[0], answer), true)
                         else AtIntent(routes[1..]), began)
  {
    Extend(moves, now, c, WorkerStep(w, DoVerdict));
    longer, d := moves + [On(ID, WorkerStep(w, DoVerdict))], Next(c, now, WorkerStep(w, DoVerdict));
  }

  lemma PlayWait(moves: seq<Move>, now: Time, c: Cell, seconds: nat) returns (longer: seq<Move>)
    requires Reaches(moves, now, c)
    ensures Reaches(longer, now + seconds, c) && (Plain(moves) ==> Plain(longer))
  {
    ExtendTime(moves, now, c, seconds);
    longer := moves + [Pass(seconds)];
  }

  /** Worker 1 has sent over WhatsApp and stands before its verdict. */
  lemma FirstSend(routes: seq<Route>, answer: Answer) returns (moves: seq<Move>, c: Cell)
    requires routes != [] && routes[0] == WhatsApp
    ensures Reaches(moves, 1, c) && Plain(moves) && c.workers.Keys == {1} && Stands(c, 1, AtVerdict(routes, answer), 1)
    ensures c.shared.event == Told(1, 121) && c.shared.delivery == Sent()
    ensures c.shared.history.refused == if answer == Refused then {WhatsApp} else {}
  {
    var m0, c0 := PlayQueue();
    var m1, c1 := PlayUpToPlan(m0, 1, c0, 1, 0, 0, routes);
    var m2, c2 := PlayIntent(m1, 1, c1, 1, routes, 1);
    moves, c := PlaySend(m2, 1, c2, 1, routes, 1, answer);
  }

  // ---------------------------------------------------------------- both ways to lose a failure

  /** Worker `w` holds the lease and is about to finish an open WhatsApp send. */
  predicate Decided(c: Cell, w: Owner, now: Time, until: Time) {
    && c.shared.event == Told(w, until) && w in c.workers && c.workers[w].pc.AtFinish? && c.workers[w].pc.withDelivery
    && WhatsAppOpen(c.workers[w].pc.outcome) && OnTime(c.workers[w], now)
    && c.shared.delivery.attempted == [WhatsApp] && c.shared.delivery.report == NoReport
    && WhatsAppOpen(c.shared.delivery.outcome)
  }

  lemma PlayLateReceipt(moves: seq<Move>, c: Cell, w: Owner, now: Time, until: Time)
    returns (longer: seq<Move>, d: Cell)
    requires Reaches(moves, now, c) && Decided(c, w, now, until)
    ensures longer == moves + [On(ID, ReceiptStep(ReceiptFailed))] && Reaches(longer, now, d)
    ensures TimelyRun(Start(1), moves) ==> TimelyRun(Start(1), longer)
    ensures Finishing(c, now) && Effective(c.shared) && Overwritable(d, now)
    ensures d.shared.event.leaseOwner == w && w in d.workers && OnTime(d.workers[w], now) && d.workers == c.workers
    ensures d.shared.event.kind == EventRow && d.shared.event.notice.Some? && d.shared.delivery.attempted == [WhatsApp]
  {
    longer, d := moves + [On(ID, ReceiptStep(ReceiptFailed))], Next(c, now, ReceiptStep(ReceiptFailed));
    Extend(moves, now, c, ReceiptStep(ReceiptFailed));
  }

  lemma LosesWith(moves: seq<Move>, one: seq<Move>, two: seq<Move>, c: Cell, d: Cell, w: Owner, now: Time)
    requires Reaches(moves, now, c) && Reaches(one, now, d)
    requires one == moves + [On(ID, ReceiptStep(ReceiptFailed))] && two == one + [On(ID, WorkerStep(w, DoFinish))]
    requires Finishing(c, now) && Effective(c.shared) && Overwritable(d, now) && d.shared.event.leaseOwner == w
    ensures LosesAt(1, two, ID, |moves|, |moves| + 1)
  {
    assert two[..|moves|] == moves && two[..|moves| + 1] == one;
    assert WorldAt(1, two, |moves|) == Run(Start(1), moves) && WorldAt(1, two, |moves| + 1) == Run(Start(1), one);
  }

  /** From there the receipt and the finish lose the failure. */
  lemma LosesFrom(moves: seq<Move>, c: Cell, w: Owner, now: Time, until: Time)
    requires Reaches(moves, now, c) && TimelyRun(Start(1), moves) && Decided(c, w, now, until)
    ensures
      var longer := moves + [On(ID, ReceiptStep(ReceiptFailed))] + [On(ID, WorkerStep(w, DoFinish))];
      TimelyRun(Start(1), longer) && LosesAt(1, longer, ID, |moves|, |moves| + 1)
  {
    var one, d := PlayLateReceipt(moves, c, w, now, until);
    Extend(one, now, d, WorkerStep(w, DoFinish));
    LosesWith(moves, one, one + [On(ID, WorkerStep(w, DoFinish))], c, d, w, now);
  }

  lemma SenderDecides() returns (moves: seq<Move>, c: Cell)
    ensures Reaches(moves, 1, c) && TimelyRun(Start(1), moves) && Decided(c, 1, 1, 121)
    ensures moves != [] && moves[|moves| - 1] == On(ID, WorkerStep(1, DoVerdict))
  {
    var m0, c0 := FirstSend([WhatsApp], Unclear);
    moves, c := PlayVerdict(m0, 1, c0, 1, [WhatsApp], 1, Unclear);
  }

  /** A timely run that loses the failure of receipt `i` right after the sender's verdict. */
  ghost predicate LosesAfterVerdict(moves: seq<Move>, i: nat, k: nat) {
    && TimelyRun(Start(1), moves) && LosesAt(1, moves, ID, i, k)
    && i > 0 && moves[i - 1] == On(ID, WorkerStep(1, DoVerdict))
  }

  lemma VerdictThenLoss(moves: seq<Move>, c: Cell)
    requires Reaches(moves, 1, c) && TimelyRun(Start(1), moves) && Decided(c, 1, 1, 121)
    requires moves != [] && moves[|moves| - 1] == On(ID, WorkerStep(1, DoVerdict))
    ensures
      var longer := moves + [On(ID, ReceiptStep(ReceiptFailed))] + [On(ID, WorkerStep(1, DoFinish))];
      LosesAfterVerdict(longer, |moves|, |moves| + 1)
  {
    LosesFrom(moves, c, 1, 1, 121);
  }

  /** The sender itself: verdict, failed receipt, finish. */
  lemma SenderLosesFailure()
    ensures exists moves, i: nat, k: nat :: LosesAfterVerdict(moves, i, k)
  {
    var moves, c := SenderDecides();
    VerdictThenLoss(moves, c);
  }

  lemma PlayFindsSending(moves: seq<Move>, now: Time, c: Cell, w: Owner) returns (longer: seq<Move>, d: Cell)
    requires Reaches(moves, now, c) && Stands(c, w, AtIntent([WhatsApp]), now)
    requires c.shared.event == Told(w, now + 120) && c.shared.delivery == Sent()
    ensures Reaches(longer, now, d) && (Plain(moves) ==> Plain(longer)) && Decided(d, w, now, now + 120)
    ensures Others(c, d, w) && d.shared == c.shared
  {
    longer, d := Play(moves, now, c, WorkerStep(w, DoIntent));
  }

  /** Worker 1 is gone after its send; worker 2 has planned the same route. */
  lemma SuccessorPlans(answer: Answer) returns (moves: seq<Move>, c: Cell)
    ensures Reaches(moves, 121, c) && Plain(moves) && c.workers.Keys == {1, 2}
    ensures Stands(c, 1, AtVerdict([WhatsApp], answer), 1) && Stands(c, 2, AtIntent([WhatsApp]), 121)
    ensures c.shared.event == Told(2, 241) && c.shared.delivery == Sent()
  {
    var m0, c0 := FirstSend([WhatsApp], answer);
    var m1 := PlayWait(m0, 1, c0, 120);
    moves, c := PlayUpToPlan(m1, 121, c0, 2, 1, 121, [WhatsApp]);
  }

  /** It has found the row sending and is about to finish. */
  lemma SuccessorDecides(answer: Answer) returns (moves: seq<Move>, c: Cell)
    ensures Reaches(moves, 121, c) && Plain(moves) && Decided(c, 2, 121, 241)
    ensures Stands(c, 1, AtVerdict([WhatsApp], answer), 1) && c.workers.Keys == {1, 2}
    ensures c.shared.delivery == Sent()
  {
    var m0, c0 := SuccessorPlans(answer);
    moves, c := PlayFindsSending(m0, 121, c0, 2);
  }

  /** A timely run that loses the failure of receipt `i` although no verdict was ever recorded. */
  ghost predicate LosesWithoutVerdict(moves: seq<Move>, i: nat, k: nat) {
    TimelyRun(Start(1), moves) && LosesAt(1, moves, ID, i, k) && NoVerdict(moves)
  }

  lemma NoVerdictButLoss(moves: seq<Move>, c: Cell)
    requires Reaches(moves, 121, c) && Plain(moves) && Decided(c, 2, 121, 241)
    ensures
      var longer := moves + [On(ID, ReceiptStep(ReceiptFailed))] + [On(ID, WorkerStep(2, DoFinish))];
      LosesWithoutVerdict(longer, |moves|, |moves| + 1)
  {
    LosesFrom(moves, c, 2, 121, 241);
  }

  /** A successor that sent nothing. */
  lemma SuccessorLosesFailure()
    ensures exists moves, i: nat, k: nat :: LosesWithoutVerdict(moves, i, k)
  {
    var moves, c := SuccessorDecides(Unclear);
    NoVerdictButLoss(moves, c);
  }

  // ---------------------------------------------------------------- beyond the lease

  lemma PlayReceipt(moves: seq<Move>, now: Time, c: Cell) returns (longer: seq<Move>, d: Cell)
    requires Reaches(moves, now, c) && c.shared.event == Told(1, 121) && c.shared.delivery == Sent()
    requires c.shared.history.refused == {WhatsApp}
    ensures Reaches(longer, now, d) && d.workers == c.workers && d.shared.event == Told(1, 121)
    ensures
      d.shared.delivery ==
        Sent().(state := RetryableRejection, outcome := Rejected(WhatsApp), report := ReceiptFailed)
    ensures d.shared.history.refused == {WhatsApp}
  {
    longer, d := Play(moves, now, c, ReceiptStep(ReceiptFailed));
  }

  /** Worker 1 was refused, a failed receipt opened the next route, and worker 2 has planned an SMS. */
  lemma SmsIsPlanned() returns (moves: seq<Move>, c: Cell)
    ensures Reaches(moves, 121, c) && c.workers.Keys == {1, 2}
    ensures Stands(c, 1, AtVerdict([WhatsApp, Telegram], Refused), 1)
    ensures Stands(c, 2, AtIntent([Sms]), 121) && c.workers[2].notice.Some? && c.workers[2].read.Some?
    ensures c.shared.delivery.attempted == [WhatsApp] && c.shared.delivery.state == RetryableRejection
    ensures c.shared.history.refused == {WhatsApp}
  {
    var m0, c0 := FirstSend([WhatsApp, Telegram], Refused);
    var m1, c1 := PlayReceipt(m0, 1, c0);
    var m2 := PlayWait(m1, 1, c1, 120);
    moves, c := PlayUpToPlan(m2, 121, c1, 2, 1, 121, [Sms]);
  }

  /** Worker 2 has sent the SMS while worker 1, long past its lease, still holds its verdict. */
  lemma TwoInFlight() returns (moves: seq<Move>, c: Cell)
    ensures Reaches(moves, 121, c) && c.workers.Keys == {1, 2}
    ensures Stands(c, 1, AtVerdict([WhatsApp, Telegram], Refused), 1)
    ensures c.shared.delivery.attempted == [WhatsApp, Sms] && c.shared.history.refused == {WhatsApp}
  {
    var m0, c0 := SmsIsPlanned();
    var m1, c1 := PlayIntent(m0, 121, c0, 2, [Sms], 121);
    moves, c := PlaySend(m1, 121, c1, 2, [Sms], 121, Taken);
  }

  /** Without the lease hypothesis a third route is tried although the second was never refused. */
  lemma OutlivedLeaseOverlaps()
    ensures exists moves :: !OnlyLastOpen(CellOf(Run(Start(1), moves), ID).shared)
  {
    var m0, c0 := TwoInFlight();
    var m1, c1 := PlayVerdict(m0, 121, c0, 1, [WhatsApp, Telegram], 1, Refused);
    assert [WhatsApp, Telegram][1..] == [Telegram];
    var m2, c2 := PlayIntent(m1, 121, c1, 1, [Telegram], 1);
    assert c2.shared.delivery.attempted[1] == Sms && Sms !in c2.shared.history.refused;
    assert !OnlyLastOpen(CellOf(Run(Start(1), m2), ID).shared);
  }

  lemma PlayOpenFinish(moves: seq<Move>, c: Cell, w: Owner, now: Time, until: Time)
    returns (longer: seq<Move>, d: Cell)
    requires Reaches(moves, now, c) && Decided(c, w, now, until)
    ensures Reaches(longer, now, d) && EndedOpen(d.shared) && d.shared.delivery == c.shared.delivery
    ensures d.workers.Keys == c.workers.Keys && forall v :: v in c.workers && v != w ==> d.workers[v] == c.workers[v]
  {
    longer, d := Play(moves, now, c, WorkerStep(w, DoFinish));
  }

  lemma PlayLateRefusal(moves: seq<Move>, now: Time, c: Cell, w: Owner) returns (longer: seq<Move>, d: Cell)
    requires Reaches(moves, now, c) && Stands(c, w, AtVerdict([WhatsApp], Refused), 1)
    requires EndedOpen(c.shared) && c.shared.delivery == Sent()
    ensures Reaches(longer, now, d) && RefusalLost(d.shared) && d.shared.delivery.report == NoReport
    ensures RecordedAfterEnd(1, longer, ID, w, |moves|)
  {
    var last := WorkerStep(w, DoVerdict);
    longer, d := Play(moves, now, c, last);
    assert longer[..|moves|] == moves;
    assert WorldAt(1, longer, |moves|) == Run(Start(1), moves);
  }

  /**
   Beyond the lease a refusal is lost without any receipt: the successor of a slow sender finishes
   as uncertain, then the sender records that it was refused.
   */
  lemma SlowSenderLosesRefusal()
    ensures exists moves, w: Owner, k: nat ::
      && RecordedAfterEnd(1, moves, ID, w, k)
      && RefusalLost(CellOf(Run(Start(1), moves), ID).shared)
      && CellOf(Run(Start(1), moves), ID).shared.delivery.report == NoReport
  {
    var m0, c0 := SuccessorDecides(Refused);
    var m1, c1 := PlayOpenFinish(m0, c0, 2, 121, 241);
    var m2, c2 := PlayLateRefusal(m1, 121, c1, 1);
  }

  lemma PlayFinish(moves: seq<Move>, now: Time, c: Cell, w: Owner) returns (longer: seq<Move>, d: Cell)
    requires Reaches(moves, now, c) && Overwritable(c, now) && c.shared.event.leaseOwner == w
    ensures Reaches(longer, now, d) && Contradicted(d.shared)
    ensures d.workers.Keys == c.workers.Keys && forall v :: v in c.workers && v != w ==> d.workers[v] == c.workers[v]
    ensures d.shared.event.kind == c.shared.event.kind && d.shared.event.notice == c.shared.event.notice
    ensures d.shared.delivery.attempted == c.shared.delivery.attempted
  {
    longer, d := Play(moves, now, c, WorkerStep(w, DoFinish));
  }

  lemma PlayLosing(moves: seq<Move>, c: Cell) returns (longer: seq<Move>, d: Cell)
    requires Reaches(moves, 121, c) && Decided(c, 2, 121, 241) && Stands(c, 1, AtVerdict([WhatsApp], Unclear), 1)
    ensures Reaches(longer, 121, d) && Contradicted(d.shared) && Stands(d, 1, AtVerdict([WhatsApp], Unclear), 1)
    ensures d.shared.event.kind == EventRow && d.shared.event.notice.Some? && d.shared.delivery.attempted == [WhatsApp]
  {
    var m1, c1 := PlayLateReceipt(moves, c, 2, 121, 241);
    longer, d := PlayFinish(m1, 121, c1, 2);
  }

  lemma PlayRepeat(moves: seq<Move>, c: Cell) returns (longer: seq<Move>, d: Cell)
    requires Reaches(moves, 121, c) && Effective(c.shared)
    ensures longer == moves + [On(ID, ReceiptStep(ReceiptFailed))] && Reaches(longer, 121, d) && Reopened(d.shared)
  {
    EffectiveReopens(c.shared);
    longer, d := Play(moves, 121, c, ReceiptStep(ReceiptFailed));
  }

  ghost predicate ReopensLost(before: seq<Move>, after: seq<Move>) {
    && Contradicted(CellOf(Run(Start(1), before), ID).shared)
    && Reopened(CellOf(Run(Start(1), before + after), ID).shared)
  }

  lemma UnclearVerdictIsEffective(s: Shared, t: Shared)
    requires Contradicted(s) && s.event.kind == EventRow && s.event.notice.Some?
    requires s.delivery.attempted == [WhatsApp]
    requires t.event == s.event && t.delivery == Verdict(s.delivery, WhatsApp, Unclear)
    ensures Effective(t)
  {
  }

  lemma PlayReopening(moves: seq<Move>, c: Cell)
    requires Reaches(moves, 121, c) && Contradicted(c.shared) && Stands(c, 1, AtVerdict([WhatsApp], Unclear), 1)
    requires c.shared.event.kind == EventRow && c.shared.event.notice.Some?
    requires c.shared.delivery.attempted == [WhatsApp]
    ensures ReopensLost(moves, [On(ID, WorkerStep(1, DoVerdict)), On(ID, ReceiptStep(ReceiptFailed))])
  {
    var m1, c1 := PlayVerdict(moves, 121, c, 1, [WhatsApp], 1, Unclear);
    UnclearVerdictIsEffective(c.shared, c1.shared);
    var m2, c2 := PlayRepeat(m1, c1);
    assert m2 == moves + [On(ID, WorkerStep(1, DoVerdict)), On(ID, ReceiptStep(ReceiptFailed))];
  }

  /** Nor is a lost failure final then: a late verdict and a repeated receipt reopen the notice. */
  lemma LateVerdictReopens()
    ensures exists before, after :: ReopensLost(before, after)
  {
    var m0, c0 := SuccessorDecides(Unclear);
    var m1, c1 := PlayLosing(m0, c0);
    PlayReopening(m1, c1);
  }
}
