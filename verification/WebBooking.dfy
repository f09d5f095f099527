/**
 The web booking requests, interleaved statement by statement.

 A request may die after any statement and may be overtaken by any other; `status` reads may
 declare a slow booking uncertain while its request is still running, and cleanup may run at
 any time.
 */
module WebBooking {
  import opened DraftStore
  import opened Options

  /** What the calendar answered; anything but the first two leaves the result open. */
  datatype Answer = Made(visitAt: nat) | Declined | Unknown

  datatype Pc =
    | AtSave
    | AtClaim
    | AtCheck
    | AtIntent
    | AtCreate
    | AtRecord(answer: Answer)
    | AtStatus
    | AtExpire(from: Status)
    | Gone

  datatype Request = Request(pc: Pc, session: string, phone: string, id: string)

  datatype Create = Create(id: string, session: string, phone: string, answer: Answer)

  /** What the last look at the calendar before sending came to. */
  datatype Check = Check(id: string, ok: bool)

  /** `used` are all identities ever drawn; the rest records what happened. */
  datatype Shared = Shared(
    drafts: Table, used: set<string>, checks: seq<Check>, senders: map<string, nat>, creates: seq<Create>,
    closed: set<string>)

  datatype System = System(shared: Shared, requests: map<nat, Request>)

  const EMPTY: System := System(Shared(map[], {}, [], map[], [], {}), map[])

  /** What a request was sent for; a booking and a status read name a draft. */
  datatype Purpose = SavePurpose | BookPurpose(id: string) | StatusPurpose(id: string)

  /** One statement or provider call of one request. */
  datatype Action =
    | DoSave(newId: string)
    | DoClaim
    | DoCheck(ok: bool)
    | DoIntent
    | DoCreate(answer: Answer)
    | DoRecord
    | DoStatus
    | DoExpire
    | DoCrash

  datatype Step =
    | StartStep(r: nat, session: string, phone: string, purpose: Purpose)
    | RequestStep(r: nat, action: Action)
    | CleanupStep(busy: set<string>)

  /** The session may see the draft: it owns it and its verified phone is the draft's. */
  predicate Visible(s: Shared, session: string, phone: string, id: string) {
    id in s.drafts && s.drafts[id].session == session && s.drafts[id].phone == phone
  }

  function Admit(s: Shared, now: nat, session: string, phone: string, purpose: Purpose): Request {
    match purpose
    case SavePurpose => Request(if PhoneLocked(s.drafts, phone) then Gone else AtSave, session, phone, "")
    case BookPurpose(id) =>
      Request(
        if !Visible(s, session, phone, id) then Gone
        else if s.drafts[id].status != Ready then AtStatus
        else if s.drafts[id].expiresAt <= now then Gone
        else AtClaim, session, phone, id)
    case StatusPurpose(id) =>
      Request(if Visible(s, session, phone, id) then AtStatus else Gone, session, phone, id)
  }

  predicate Enabled(s: Shared, x: Request, action: Action) {
    match action
    case DoSave(newId) => x.pc == AtSave && newId !in s.used
    case DoClaim => x.pc == AtClaim
    case DoCheck(_) => x.pc == AtCheck
    case DoIntent => x.pc == AtIntent
    case DoCreate(_) => x.pc == AtCreate
    case DoRecord => x.pc.AtRecord?
    case DoStatus => x.pc == AtStatus
    case DoExpire => x.pc.AtExpire?
    case DoCrash => true
  }

  function Recorded(t: Table, id: string, answer: Answer, now: nat): Table {
    match answer
    case Made(visitAt) => Confirm(t, id, visitAt, now)
    case Declined => Move(t, id, Sending, Rejected, now)
    case Unknown => Move(t, id, Sending, Uncertain, now)
  }

  function Act(s: Shared, r: nat, x: Request, now: nat, action: Action): (Shared, Request)
    requires Enabled(s, x, action)
  {
    var t := s.drafts;
    match action
    case DoSave(newId) =>
      (s.(drafts := Save(t, newId, x.session, x.phone, now), used := s.used + {newId}), x.(pc := Gone))
    case DoClaim =>
      (s.(drafts := Claim(t, x.id, x.session, now)),
       x.(pc := if Claimable(t, x.id, x.session, now) then AtCheck else AtStatus))
    case DoCheck(ok) =>
      var looked := s.(checks := s.checks + [Check(x.id, ok)]);
      if ok then (looked, x.(pc := AtIntent))
      else (looked.(drafts := Move(t, x.id, Checking, Rejected, now)), x.(pc := Gone))
    case DoIntent =>
      if Movable(t, x.id, Checking) then
        (s.(drafts := Move(t, x.id, Checking, Sending, now), senders := s.senders[x.id := r]), x.(pc := AtCreate))
      else (s, x.(pc := AtStatus))
    case DoCreate(answer) =>
      (s.(creates := s.creates + [Create(x.id, x.session, x.phone, answer)]), x.(pc := AtRecord(answer)))
    case DoRecord =>
      var answer := x.pc.answer;
      (s.(drafts := Recorded(t, x.id, answer, now),
          closed := if Movable(t, x.id, Sending) && answer != Unknown then s.closed + {x.id} else s.closed),
       x.(pc := Gone))
    case DoStatus =>
      var stuck :=
        && Visible(s, x.session, x.phone, x.id) && t[x.id].status in {Checking, Sending}
        && t[x.id].updatedAt + STUCK_AFTER < now;
      (s, x.(pc := if stuck then AtExpire(t[x.id].status) else Gone))
    case DoExpire => (s.(drafts := Move(t, x.id, x.pc.from, Uncertain, now)), x.(pc := Gone))
    case DoCrash => (s, x.(pc := Gone))
  }

  function Do(y: System, now: nat, step: Step): System {
    match step
    case CleanupStep(busy) => y.(shared := y.shared.(drafts := Cleanup(y.shared.drafts, busy, now)))
    case StartStep(r, session, phone, purpose) =>
      if r in y.requests then y
      else y.(requests := y.requests[r := Admit(y.shared, now, session, phone, purpose)])
    case RequestStep(r, action) =>
      if r !in y.requests || !Enabled(y.shared, y.requests[r], action) then y
      else
        var (s, x) := Act(y.shared, r, y.requests[r], now, action);
        System(s, y.requests[r := x])
  }

  /** Any clock, any order. */
  function Run(moves: seq<(nat, Step)>): System
    decreases |moves|
  {
    if moves == [] then EMPTY
    else Do(Run(moves[..|moves| - 1]), moves[|moves| - 1].0, moves[|moves| - 1].1)
  }

  // ---------------------------------------------------------------- who may do what

  /** A request acts on the drafts of its session and phone only, and books them while they are ready and fresh. */
  lemma AdmittedExactly(s: Shared, now: nat, session: string, phone: string, purpose: Purpose)
    ensures
      var x := Admit(s, now, session, phone, purpose);
      var id := if purpose.SavePurpose? then "" else purpose.id;
      var mine := id in s.drafts && s.drafts[id].session == session && s.drafts[id].phone == phone;
      && x.session == session && x.phone == phone && x.id == id
      && (x.pc == AtSave <==> purpose.SavePurpose? && !Unresolved(s.drafts, phone))
      && (x.pc == AtClaim <==>
            purpose.BookPurpose? && mine && s.drafts[id].status == Ready && now < s.drafts[id].expiresAt)
      && (x.pc == AtStatus <==>
            mine && (purpose.StatusPurpose? || (purpose.BookPurpose? && s.drafts[id].status != Ready)))
      && (x.pc != AtSave && x.pc != AtClaim && x.pc != AtStatus ==> x.pc == Gone)
  {
  }

  /** Each statement decides what the request does next. */
  lemma GoesOnExactly(s: Shared, r: nat, x: Request, now: nat, action: Action)
    requires Enabled(s, x, action)
    ensures
      var next := Act(s, r, x, now, action).1;
      && next == x.(pc := next.pc)
      && (action.DoClaim? ==> next.pc == if Claimable(s.drafts, x.id, x.session, now) then AtCheck else AtStatus)
      && (action.DoCheck? ==> next.pc == if action.ok then AtIntent else Gone)
      && (action.DoIntent? ==>
            next.pc == if x.id in s.drafts && s.drafts[x.id].status == Checking then AtCreate else AtStatus)
      && (action.DoCreate? ==> next.pc == AtRecord(action.answer))
      && (action.DoSave? || action.DoRecord? || action.DoExpire? || action.DoCrash? ==> next.pc == Gone)
  {
  }

  /**
   A status read gives up on its own draft a minute and a half after its last change, and the draft becomes
   uncertain.
   */
  lemma GivesUpExactly(s: Shared, r: nat, x: Request, now: nat)
    requires x.pc == AtStatus
    ensures
      var next := Act(s, r, x, now, DoStatus).1;
      var t := s.drafts;
      && (next.pc.AtExpire? <==>
            && x.id in t && t[x.id].session == x.session && t[x.id].phone == x.phone
            && t[x.id].status in {Checking, Sending} && t[x.id].updatedAt + 90 < now)
      && (next.pc.AtExpire? ==>
            Act(s, r, next, now, DoExpire).0.drafts == Move(t, x.id, t[x.id].status, Uncertain, now))
      && (!next.pc.AtExpire? ==> next.pc == Gone)
  {
  }

  /** Only saving, claiming, a failed check, the intent, the record and giving up write drafts. */
  lemma WritesExactly(s: Shared, r: nat, x: Request, now: nat, action: Action)
    requires Enabled(s, x, action)
    ensures
      var t, u := s.drafts, Act(s, r, x, now, action).0.drafts;
      match action
      case DoSave(newId) => u == Save(t, newId, x.session, x.phone, now)
      case DoClaim => u == Claim(t, x.id, x.session, now)
      case DoCheck(ok) => u == if ok then t else Move(t, x.id, Checking, Rejected, now)
      case DoIntent => u == Move(t, x.id, Checking, Sending, now)
      case DoRecord =>
        (match x.pc.answer
         case Made(visitAt) => u == Confirm(t, x.id, visitAt, now)
         case Declined => u == Move(t, x.id, Sending, Rejected, now)
         case Unknown => u == Move(t, x.id, Sending, Uncertain, now))
      case DoExpire => u == Move(t, x.id, x.pc.from, Uncertain, now)
      case _ => u == t
  {
  }

  /** Where a request stands decides its one statement. */
  lemma OneStatementAtATime(s: Shared, x: Request, action: Action)
    ensures
      Enabled(s, x, action) <==>
        || action.DoCrash?
        || match x.pc
           case AtSave => action.DoSave? && action.newId !in s.used
           case AtClaim => action.DoClaim?
           case AtCheck => action.DoCheck?
           case AtIntent => action.DoIntent?
           case AtCreate => action.DoCreate?
           case AtRecord(_) => action.DoRecord?
           case AtStatus => action.DoStatus?
           case AtExpire(_) => action.DoExpire?
           case Gone => false
  {
  }

  /** Each check and create is on record, and a draft is closed by a definite answer stored while it is being sent. */
  lemma HistoryExactly(s: Shared, r: nat, x: Request, now: nat, action: Action)
    requires Enabled(s, x, action)
    ensures
      var u := Act(s, r, x, now, action).0;
      var status := if x.id in s.drafts then Some(s.drafts[x.id].status) else None;
      && u.used == s.used + (if action.DoSave? then {action.newId} else {})
      && u.checks == s.checks + (if action.DoCheck? then [Check(x.id, action.ok)] else [])
      && u.senders == s.senders + (if action.DoIntent? && status == Some(Checking) then map[x.id := r] else map[])
      && u.creates ==
           s.creates + (if action.DoCreate? then [Create(x.id, x.session, x.phone, action.answer)] else [])
      && u.closed ==
           s.closed + (if action.DoRecord? && status == Some(Sending) && x.pc.answer != Unknown then {x.id} else {})
  {
  }

  /** Each step is one request's statement or the cleanup, and nothing else changes. */
  lemma StepsAreStatements(y: System, now: nat, step: Step)
    ensures
      var z := Do(y, now, step);
      match step
      case CleanupStep(busy) =>
        z.requests == y.requests && z.shared == y.shared.(drafts := Cleanup(y.shared.drafts, busy, now))
      case StartStep(r, session, phone, purpose) =>
        && z.shared == y.shared && z.requests.Keys == y.requests.Keys + {r}
        && z.requests[r] == (if r in y.requests then y.requests[r] else Admit(y.shared, now, session, phone, purpose))
        && forall q :: q in y.requests ==> z.requests[q] == y.requests[q]
      case RequestStep(r, action) =>
        if r in y.requests && Enabled(y.shared, y.requests[r], action)
        then (z.shared, z.requests) ==
          (Act(y.shared, r, y.requests[r], now, action).0,
           y.requests[r := Act(y.shared, r, y.requests[r], now, action).1])
        else z == y
  {
  }

  // ---------------------------------------------------------------- the invariant

  predicate Created(s: Shared, id: string) {
    exists k :: 0 <= k < |s.creates| && s.creates[k].id == id
  }

  ghost predicate OneLockPerPhone(t: Table) {
    forall a, b :: a in t && b in t && t[a].phone == t[b].phone && Locks(t[a].status) && Locks(t[b].status) ==> a == b
  }

  /** The booking was sent and its answer is not on record. */
  predicate Pending(s: Shared, id: string) {
    id in s.drafts && s.drafts[id].status in {Sending, Uncertain}
  }

  /** The draft of a create is its session's, for its phone. */
  predicate MadeFor(d: Draft, c: Create) { d.session == c.session && d.phone == c.phone }

  ghost predicate CreatesOk(s: Shared) {
    && (forall k :: 0 <= k < |s.creates| ==>
          && s.creates[k].id in s.senders
          && (s.creates[k].id in s.drafts ==> MadeFor(s.drafts[s.creates[k].id], s.creates[k]))
          && (s.creates[k].answer == Unknown ==> s.creates[k].id !in s.closed))
    && (forall k, m :: 0 <= k < m < |s.creates| ==>
          && s.creates[k].id != s.creates[m].id
          && (s.creates[k].phone == s.creates[m].phone ==> s.creates[k].id in s.closed))
  }

  ghost predicate TableOk(s: Shared) {
    OneLockPerPhone(s.drafts) && forall id :: id in s.drafts ==> id in s.used
  }

  ghost predicate SendersOk(s: Shared) {
    && (forall id :: id in s.senders ==> id in s.used && (id in s.closed || Pending(s, id)))
    && (forall id :: id in s.senders && id in s.drafts ==> s.drafts[id].status !in {Ready, Checking, Superseded})
    && (forall id :: id in s.closed ==> id in s.senders && !Pending(s, id))
  }

  /** A recorded answer stands, as long as its draft is kept. */
  predicate Stands(t: Table, c: Create) {
    c.id in t ==>
      && (c.answer.Made? ==> t[c.id].status == Confirmed && t[c.id].visitAt == c.answer.visitAt)
      && (c.answer.Declined? ==> t[c.id].status == Rejected)
  }

  ghost predicate AnswersOk(s: Shared) {
    && (forall k :: 0 <= k < |s.creates| && s.creates[k].id in s.closed ==> Stands(s.drafts, s.creates[k]))
    && (forall id :: id in s.senders ==> Check(id, true) in s.checks)
  }

  ghost predicate SharedOk(s: Shared) { TableOk(s) && SendersOk(s) && CreatesOk(s) && AnswersOk(s) }

  ghost predicate RequestOk(s: Shared, r: nat, x: Request) {
    && (x.pc != AtSave && x.pc != Gone ==> x.id in s.used)
    && (x.pc != AtSave && x.pc != Gone && x.id in s.drafts ==>
          s.drafts[x.id].session == x.session && s.drafts[x.id].phone == x.phone)
    && (x.pc == AtIntent ==> Check(x.id, true) in s.checks)
    && (x.pc == AtCreate || x.pc.AtRecord? ==> x.id in s.senders && s.senders[x.id] == r && x.id !in s.closed)
    && (x.pc == AtCreate ==> !Created(s, x.id))
    && (x.pc.AtRecord? ==>
          forall k :: 0 <= k < |s.creates| && s.creates[k].id == x.id ==> s.creates[k].answer == x.pc.answer)
    && (x.pc.AtExpire? ==> x.pc.from in {Checking, Sending})
  }

  ghost predicate Inv(y: System) {
    SharedOk(y.shared) && forall r :: r in y.requests ==> RequestOk(y.shared, r, y.requests[r])
  }

  lemma SaveKeepsLocks(t: Table, id: string, session: string, phone: string, now: nat)
    requires OneLockPerPhone(t)
    ensures OneLockPerPhone(Save(t, id, session, phone, now))
  {
  }

  lemma ClaimKeepsLocks(t: Table, id: string, session: string, now: nat)
    requires OneLockPerPhone(t)
    ensures OneLockPerPhone(Claim(t, id, session, now))
  {
  }

  lemma MoveKeepsLocks(t: Table, id: string, from: Status, to: Status, visitAt: nat, now: nat)
    requires OneLockPerPhone(t) && (Locks(to) ==> Locks(from))
    ensures OneLockPerPhone(Move(t, id, from, to, now)) && OneLockPerPhone(Confirm(t, id, visitAt, now))
  {
  }

  lemma ActKeepsTable(s: Shared, r: nat, x: Request, now: nat, action: Action)
    requires SharedOk(s) && RequestOk(s, r, x) && Enabled(s, x, action)
    ensures TableOk(Act(s, r, x, now, action).0)
  {
    var t := s.drafts;
    match action
    case DoSave(newId) => SaveKeepsLocks(t, newId, x.session, x.phone, now);
    case DoClaim => ClaimKeepsLocks(t, x.id, x.session, now);
    case DoCheck(_) => MoveKeepsLocks(t, x.id, Checking, Rejected, 0, now);
    case DoIntent => MoveKeepsLocks(t, x.id, Checking, Sending, 0, now);
    case DoRecord =>
      MoveKeepsLocks(t, x.id, Sending, Rejected, if x.pc.answer.Made? then x.pc.answer.visitAt else 0, now);
      MoveKeepsLocks(t, x.id, Sending, Uncertain, 0, now);
    case DoExpire => MoveKeepsLocks(t, x.id, x.pc.from, Uncertain, 0, now);
    case _ =>
  }

  lemma RecordKeepsSenders(s: Shared, r: nat, x: Request, now: nat, action: Action)
    requires SharedOk(s) && RequestOk(s, r, x) && Enabled(s, x, action) && (action.DoRecord? || action.DoExpire?)
    ensures SendersOk(Act(s, r, x, now, action).0)
  {
  }

  lemma ActKeepsSenders(s: Shared, r: nat, x: Request, now: nat, action: Action)
    requires SharedOk(s) && RequestOk(s, r, x) && Enabled(s, x, action)
    ensures SendersOk(Act(s, r, x, now, action).0)
  {
    if action.DoRecord? || action.DoExpire? {
      RecordKeepsSenders(s, r, x, now, action);
    }
  }

  lemma CreateKeepsCreates(s: Shared, r: nat, x: Request, now: nat, action: Action)
    requires SharedOk(s) && RequestOk(s, r, x) && Enabled(s, x, action) && action.DoCreate?
    ensures CreatesOk(Act(s, r, x, now, action).0)
  {
  }

  lemma RecordKeepsCreates(s: Shared, r: nat, x: Request, now: nat, action: Action)
    requires SharedOk(s) && RequestOk(s, r, x) && Enabled(s, x, action) && action.DoRecord?
    ensures CreatesOk(Act(s, r, x, now, action).0)
  {
  }

  lemma ActKeepsCreates(s: Shared, r: nat, x: Request, now: nat, action: Action)
    requires SharedOk(s) && RequestOk(s, r, x) && Enabled(s, x, action)
    ensures CreatesOk(Act(s, r, x, now, action).0)
  {
    if action.DoCreate? {
      CreateKeepsCreates(s, r, x, now, action);
    } else if action.DoRecord? {
      RecordKeepsCreates(s, r, x, now, action);
    }
  }

  lemma RecordKeepsAnswers(s: Shared, r: nat, x: Request, now: nat, action: Action)
    requires SharedOk(s) && RequestOk(s, r, x) && Enabled(s, x, action) && action.DoRecord?
    ensures AnswersOk(Act(s, r, x, now, action).0)
  {
  }

  lemma ActKeepsAnswers(s: Shared, r: nat, x: Request, now: nat, action: Action)
    requires SharedOk(s) && RequestOk(s, r, x) && Enabled(s, x, action)
    ensures AnswersOk(Act(s, r, x, now, action).0)
  {
    if action.DoRecord? {
      RecordKeepsAnswers(s, r, x, now, action);
    }
  }

  lemma ActKeepsMover(s: Shared, r: nat, x: Request, now: nat, action: Action)
    requires SharedOk(s) && RequestOk(s, r, x) && Enabled(s, x, action)
    ensures RequestOk(Act(s, r, x, now, action).0, r, Act(s, r, x, now, action).1)
  {
  }

  lemma ActKeepsBystander(s: Shared, r: nat, x: Request, now: nat, action: Action, q: nat, z: Request)
    requires SharedOk(s) && RequestOk(s, r, x) && Enabled(s, x, action)
    requires q != r && RequestOk(s, q, z)
    ensures RequestOk(Act(s, r, x, now, action).0, q, z)
  {
  }

  lemma CleanupKeeps(y: System, busy: set<string>, now: nat)
    requires Inv(y)
    ensures Inv(Do(y, now, CleanupStep(busy)))
  {
  }

  lemma DoKeeps(y: System, now: nat, step: Step)
    requires Inv(y)
    ensures Inv(Do(y, now, step))
  {
    match step
    case CleanupStep(busy) => CleanupKeeps(y, busy, now);
    case StartStep(_, _, _, _) =>
    case RequestStep(r, action) =>
      if r in y.requests && Enabled(y.shared, y.requests[r], action) {
        var x := y.requests[r];
        ActKeepsTable(y.shared, r, x, now, action);
        ActKeepsSenders(y.shared, r, x, now, action);
        ActKeepsCreates(y.shared, r, x, now, action);
        ActKeepsAnswers(y.shared, r, x, now, action);
        ActKeepsMover(y.shared, r, x, now, action);
        forall q | q in y.requests && q != r ensures RequestOk(Act(y.shared, r, x, now, action).0, q, y.requests[q]) {
          ActKeepsBystander(y.shared, r, x, now, action, q, y.requests[q]);
        }
      }
  }

  lemma {:induction false} RunKeeps(moves: seq<(nat, Step)>)
    ensures Inv(Run(moves))
  {
    if moves != [] {
      RunKeeps(moves[..|moves| - 1]);
      DoKeeps(Run(moves[..|moves| - 1]), moves[|moves| - 1].0, moves[|moves| - 1].1);
    }
  }

  // ---------------------------------------------------------------- whole runs

  /** A draft reaches the calendar at most once. */
  lemma OneCreatePerDraft(moves: seq<(nat, Step)>)
    ensures
      var creates := Run(moves).shared.creates;
      forall k, m :: 0 <= k < m < |creates| ==> creates[k].id != creates[m].id
  {
    RunKeeps(moves);
  }

  /** A phone has at most one draft being checked, sent or unresolved. */
  lemma OneUnresolvedPerPhone(moves: seq<(nat, Step)>)
    ensures OneLockPerPhone(Run(moves).shared.drafts)
  {
    RunKeeps(moves);
  }

  /** A phone's next create starts only after the previous answer was definite and recorded. */
  lemma EarlierCreatesWereClosed(moves: seq<(nat, Step)>, k: nat, m: nat)
    requires k < m < |Run(moves).shared.creates|
    requires Run(moves).shared.creates[k].phone == Run(moves).shared.creates[m].phone
    ensures
      var s := Run(moves).shared;
      && s.creates[k].answer != Unknown && s.creates[k].id in s.closed
      && !Pending(s, s.creates[k].id)
  {
    RunKeeps(moves);
  }

  /**
   Only checked drafts are sent, each for the session and phone it was saved by, and a recorded answer is
   never revised.
   */
  lemma EveryCreateWasChecked(moves: seq<(nat, Step)>, k: nat)
    requires k < |Run(moves).shared.creates|
    ensures
      var s := Run(moves).shared;
      var c := s.creates[k];
      && Check(c.id, true) in s.checks
      && (c.id in s.drafts ==> s.drafts[c.id].session == c.session && s.drafts[c.id].phone == c.phone)
      && (c.id in s.closed && c.id in s.drafts ==>
            && c.answer != Unknown
            && (c.answer.Made? ==> s.drafts[c.id].status == Confirmed && s.drafts[c.id].visitAt == c.answer.visitAt)
            && (c.answer.Declined? ==> s.drafts[c.id].status == Rejected))
  {
    RunKeeps(moves);
    var s := Run(moves).shared;
    if s.creates[k].id in s.closed {
      assert Stands(s.drafts, s.creates[k]);
    }
  }

  lemma {:induction false} HistoryGrows(before: seq<(nat, Step)>, after: seq<(nat, Step)>)
    ensures Run(before).shared.creates <= Run(before + after).shared.creates
    decreases |after|
  {
    if after == [] {
      assert before + after == before;
    } else {
      HistoryGrows(before, after[..|after| - 1]);
      assert (before + after)[..|before + after| - 1] == before + after[..|after| - 1];
    }
  }

  lemma RunAppend(moves: seq<(nat, Step)>, now: nat, step: Step)
    ensures Run(moves + [(now, step)]) == Do(Run(moves), now, step)
  {
    assert (moves + [(now, step)])[..|moves|] == moves;
  }

  /** One visitor saves a draft, books it, and the calendar answers: the first `n` of eight steps. */
  function VisitStep(id: string, session: string, phone: string, answer: Answer, n: nat): Step {
    match n
    case 0 => StartStep(0, session, phone, SavePurpose)
    case 1 => RequestStep(0, DoSave(id))
    case 2 => StartStep(1, session, phone, BookPurpose(id))
    case 3 => RequestStep(1, DoClaim)
    case 4 => RequestStep(1, DoCheck(true))
    case 5 => RequestStep(1, DoIntent)
    case 6 => RequestStep(1, DoCreate(answer))
    case _ => RequestStep(1, DoRecord)
  }

  function Visit(id: string, session: string, phone: string, answer: Answer, now: nat, n: nat): seq<(nat, Step)> {
    if n == 0 then []
    else Visit(id, session, phone, answer, now, n - 1) + [(now, VisitStep(id, session, phone, answer, n - 1))]
  }

  lemma VisitTo(id: string, session: string, phone: string, answer: Answer, now: nat, n: nat)
    ensures
      Run(Visit(id, session, phone, answer, now, n + 1)) ==
      Do(Run(Visit(id, session, phone, answer, now, n)), now, VisitStep(id, session, phone, answer, n))
  {
    RunAppend(Visit(id, session, phone, answer, now, n), now, VisitStep(id, session, phone, answer, n));
  }

  /** The visitor's draft, as saved and then moved. */
  function Visited(id: string, session: string, phone: string, status: Status, now: nat): Table {
    map[id := Draft(session, phone, status, now, now + DRAFT_LIFE, now, 0)]
  }

  lemma VisitSaves(id: string, session: string, phone: string, answer: Answer, now: nat)
    ensures
      var y := Run(Visit(id, session, phone, answer, now, 2));
      && y.shared == Shared(Visited(id, session, phone, Ready, now), {id}, [], map[], [], {})
      && y.requests.Keys == {0}
  {
    VisitTo(id, session, phone, answer, now, 0);
    VisitTo(id, session, phone, answer, now, 1);
  }

  lemma VisitAsks(id: string, session: string, phone: string, answer: Answer, now: nat)
    ensures
      var y := Run(Visit(id, session, phone, answer, now, 3));
      && y.shared == Shared(Visited(id, session, phone, Ready, now), {id}, [], map[], [], {})
      && 1 in y.requests && y.requests[1] == Request(AtClaim, session, phone, id)
  {
    VisitSaves(id, session, phone, answer, now);
    VisitTo(id, session, phone, answer, now, 2);
  }

  lemma VisitedIsClaimed(id: string, session: string, phone: string, now: nat)
    ensures
      var t := Visited(id, session, phone, Ready, now);
      Claimable(t, id, session, now) && Claim(t, id, session, now) == Visited(id, session, phone, Checking, now)
  {
  }

  lemma VisitClaims(id: string, session: string, phone: string, answer: Answer, now: nat)
    ensures
      var y := Run(Visit(id, session, phone, answer, now, 4));
      && y.shared == Shared(Visited(id, session, phone, Checking, now), {id}, [], map[], [], {})
      && 1 in y.requests && y.requests[1] == Request(AtCheck, session, phone, id)
  {
    VisitAsks(id, session, phone, answer, now);
    VisitTo(id, session, phone, answer, now, 3);
    VisitedIsClaimed(id, session, phone, now);
  }

  lemma VisitChecks(id: string, session: string, phone: string, answer: Answer, now: nat)
    ensures
      var y := Run(Visit(id, session, phone, answer, now, 5));
      && y.shared == Shared(Visited(id, session, phone, Checking, now), {id}, [Check(id, true)], map[], [], {})
      && 1 in y.requests && y.requests[1] == Request(AtIntent, session, phone, id)
  {
    VisitClaims(id, session, phone, answer, now);
    VisitTo(id, session, phone, answer, now, 4);
  }

  lemma VisitSends(id: string, session: string, phone: string, answer: Answer, now: nat)
    ensures
      var y := Run(Visit(id, session, phone, answer, now, 6));
      && y.shared == Shared(Visited(id, session, phone, Sending, now), {id}, [Check(id, true)], map[id := 1], [], {})
      && 1 in y.requests && y.requests[1] == Request(AtCreate, session, phone, id)
  {
    VisitChecks(id, session, phone, answer, now);
    VisitTo(id, session, phone, answer, now, 5);
  }

  lemma VisitCreates(id: string, session: string, phone: string, answer: Answer, now: nat)
    ensures
      var y := Run(Visit(id, session, phone, answer, now, 7));
      && y.shared.drafts == Visited(id, session, phone, Sending, now)
      && y.shared.creates == [Create(id, session, phone, answer)]
      && 1 in y.requests && y.requests[1] == Request(AtRecord(answer), session, phone, id)
  {
    VisitSends(id, session, phone, answer, now);
    VisitTo(id, session, phone, answer, now, 6);
  }

  /** The visitor's booking reaches the calendar once, and the draft ends as the answer says. */
  lemma VisitIsBooked(id: string, session: string, phone: string, answer: Answer, now: nat)
    ensures
      var s := Run(Visit(id, session, phone, answer, now, 8)).shared;
      && s.creates == [Create(id, session, phone, answer)] && s.drafts.Keys == {id}
      && s.drafts[id].status ==
           (match answer case Made(_) => Confirmed case Declined => Rejected case Unknown => Uncertain)
      && s.drafts[id].visitAt == (if answer.Made? then answer.visitAt else 0)
  {
    VisitCreates(id, session, phone, answer, now);
    VisitTo(id, session, phone, answer, now, 7);
  }

  /** An ambiguous create keeps its phone locked for good, and no later create for the phone ever starts. */
  lemma AmbiguousCreateIsLast(before: seq<(nat, Step)>, after: seq<(nat, Step)>, k: nat)
    requires k < |Run(before).shared.creates| && Run(before).shared.creates[k].answer == Unknown
    ensures
      var c := Run(before).shared.creates[k];
      var s := Run(before + after).shared;
      && PhoneLocked(s.drafts, c.phone) && Pending(s, c.id)
      && forall m :: |Run(before).shared.creates| <= m < |s.creates| ==> s.creates[m].phone != c.phone
  {
    HistoryGrows(before, after);
    RunKeeps(before + after);
    var s := Run(before + after).shared;
    assert s.creates[k] == Run(before).shared.creates[k];
    assert Pending(s, s.creates[k].id);
  }
}
