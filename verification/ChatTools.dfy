/**
 The assistant's booking tools in one chat message: propose first, confirm later.

 Each tool is a function from the session before to the session after; `Session` runs the
 same tools in place and `Reply` drives them.  What a tool reads outside the session (live
 bookings, the catalogue, the calendar's answer) is a parameter of the call.
 */
module ChatTools {
  import opened Options

  const MAX_AGE: int := 3600
  const MAX_ROUNDS: nat := 6
  const MAX_BATCH: nat := 8
  const OUTPUT_BUDGET: int := 16000
  const LEAST_BUDGET: int := 512

  /** What the customer is asked to agree to. */
  datatype Proposal = Proposal(
    key: string, services: seq<string>, serviceNames: seq<string>, price: string, staff: string, staffName: string,
    startsAt: int, duration: int, phone: string, name: string)

  datatype Draft = Draft(proposal: Proposal, awaiting: bool, preparedAt: int, from: string)

  datatype Kind = CancelKind | MoveKind

  datatype Change = Change(kind: Kind, reference: string, newStart: int, preparedAt: int, from: string)

  /** How the chat was last answered about a proposal: with its details, or with a request to prove the phone. */
  datatype Entry =
    | Summary(from: string, proposal: Proposal, preparedAt: int)
    | Prompt(from: string, proposal: Proposal, preparedAt: int)
    | Question(change: Change)

  /**
   The stored conversation.  Two parts are records that no tool reads: `trail` holds the answers
   that led to it, `unread` tells whether the draft was parked when prepared and never brought back.
   */
  datatype Conv = Conv(
    customer: string, draft: Option<Draft>, change: Option<Change>, trail: seq<Entry>, unread: bool)

  datatype Request = Request(
    key: string, customer: string, name: string, phone: string, services: seq<string>, staff: string,
    startsAt: int, duration: int)

  datatype Mutation =
    | Create(request: Request)
    | Cancel(reference: string)
    | Reschedule(reference: string, newStart: int)

  datatype Outcome = Done | Taken | Unknown | Failed

  /** A request sent to the calendar, the phone proved at that moment and the conversation it was sent from. */
  datatype Issue = Issue(message: string, at: int, mutation: Mutation, outcome: Outcome, verified: string, basis: Conv)

  /** One message being handled; `identity` tells whether phones have to be proved. */
  datatype Turn = Turn(
    conv: Conv, message: string, customer: string, verified: string, identity: bool,
    answered: bool, attempted: bool, issues: seq<Issue>)

  datatype Status = Confirmed | Cancelled | Other

  datatype Booking = Booking(reference: string, status: Status, startsAt: int, manageable: bool)

  /** A tool call with everything it will read. */
  datatype Call =
    | PrepareBooking(parsed: bool, proposal: Option<Proposal>, free: bool)
    | ConfirmBooking(extraTime: map<string, bool>, outcome: Outcome)
    | PrepareCancel(bookings: seq<Booking>, reference: string)
    | ConfirmCancel(bookings: seq<Booking>, outcome: Outcome)
    | PrepareMove(bookings: seq<Booking>, reference: string, newStart: Option<int>, free: bool)
    | ConfirmMove(bookings: seq<Booking>, outcome: Outcome)
    | Lookup(answers: bool)

  predicate Confirmable(d: Draft, now: int) {
    var p := d.proposal;
    && p.key != "" && p.services != [] && p.staff != "" && p.phone != "" && p.duration > 0 && d.from != ""
    && now - d.preparedAt <= MAX_AGE && p.startsAt > now
  }

  predicate Applicable(c: Change, kind: Kind, now: int) {
    && c.kind == kind && c.reference != "" && c.from != ""
    && now - c.preparedAt <= MAX_AGE && (kind == MoveKind ==> c.newStart > now)
  }

  function ToRequest(p: Proposal, customer: string): Request {
    Request(p.key, customer, p.name, p.phone, p.services, p.staff, p.startsAt, p.duration)
  }

  /** The first booking with the reference, if the customer can manage it. */
  function Owned(bookings: seq<Booking>, reference: string): Option<Booking> {
    if bookings == [] then None
    else if bookings[0].reference == reference then (if bookings[0].manageable then Some(bookings[0]) else None)
    else Owned(bookings[1..], reference)
  }

  datatype Problem = NoProblem | LookupFailed | ExtraTimeOnly

  /** Services are looked up one by one; a missing one ends the check, and so does one that only adds time. */
  function FirstProblem(services: seq<string>, extraTime: map<string, bool>): Problem {
    if services == [] then NoProblem
    else if services[0] !in extraTime then LookupFailed
    else if extraTime[services[0]] then ExtraTimeOnly
    else FirstProblem(services[1..], extraTime)
  }

  function Said(d: Draft): Entry {
    if d.awaiting then Prompt(d.from, d.proposal, d.preparedAt) else Summary(d.from, d.proposal, d.preparedAt)
  }

  function WithDraft(t: Turn, d: Option<Draft>): Turn { t.(conv := t.conv.(draft := d)) }

  function WithChange(t: Turn, c: Option<Change>): Turn { t.(conv := t.conv.(change := c)) }

  /** Stores the draft and answers about it. */
  function Offer(t: Turn, d: Draft, unread: bool): Turn {
    t.(conv := t.conv.(draft := Some(d), trail := t.conv.trail + [Said(d)], unread := unread))
  }

  function Propose(t: Turn, c: Change): Turn {
    t.(conv := t.conv.(change := Some(c), trail := t.conv.trail + [Question(c)]))
  }

  /**
   Nothing sent is forgotten, one call sends at most one request, and it is still the same message of the
   same chat.
   */
  predicate Follows(t: Turn, u: Turn) {
    && t.issues <= u.issues && |u.issues| <= |t.issues| + 1
    && u.message == t.message && u.customer == t.customer && u.verified == t.verified && u.identity == t.identity
    && u.attempted == t.attempted && u.conv.customer == t.conv.customer
  }

  function Send(t: Turn, now: int, mutation: Mutation, outcome: Outcome): (u: Turn)
    ensures Follows(t, u) && |u.issues| == |t.issues| + 1 && u.issues[|t.issues|].mutation == mutation
  {
    t.(issues := t.issues + [Issue(t.message, now, mutation, outcome, t.verified, t.conv)])
  }

  predicate Unproved(t: Turn, phone: string) { t.identity && t.verified != phone }

  /** No other proposal than the one there was, made when it was made. */
  predicate SameProposal(t: Turn, u: Turn) {
    u.conv.draft.Some? ==>
      && t.conv.draft.Some? && u.conv.draft.value.proposal == t.conv.draft.value.proposal
      && u.conv.draft.value.preparedAt == t.conv.draft.value.preparedAt
  }

  predicate ProposedNow(u: Turn, proposal: Option<Proposal>, now: int) {
    u.conv.draft.Some? && proposal == Some(u.conv.draft.value.proposal) && u.conv.draft.value.preparedAt == now
  }

  function RunPrepareBooking(t: Turn, now: int, parsed: bool, proposal: Option<Proposal>, free: bool): (u: Turn)
    ensures Follows(t, u) && u.issues == t.issues
    ensures SameProposal(t, u) || ProposedNow(u, proposal, now)
  {
    if !parsed then t
    else
      var cleared := WithChange(WithDraft(t, None), None);
      if proposal == None then cleared
      else
        var d := Draft(proposal.value, false, now, t.message);
        if !Confirmable(d, now) || !free then cleared
        else if Unproved(t, d.proposal.phone) then Offer(cleared, d.(awaiting := true), true).(answered := true)
        else Offer(cleared, d, false)
  }

  /** The last look at the services, the request and what its outcome means. */
  function Book(t: Turn, now: int, p: Proposal, extraTime: map<string, bool>, outcome: Outcome): (u: Turn)
    ensures Follows(t, u) && (u.conv.draft == None || u.conv.draft == t.conv.draft)
    ensures |u.issues| > |t.issues| ==> u.issues[|t.issues|].mutation.Create?
  {
    match FirstProblem(p.services, extraTime)
    case LookupFailed => t
    case ExtraTimeOnly => WithDraft(t, None)
    case NoProblem =>
      var sent := Send(t, now, Create(ToRequest(p, t.customer)), outcome);
      match outcome
      case Done => WithDraft(sent, None).(answered := true)
      case Taken => WithDraft(sent, None)
      case _ => sent
  }

  function RunConfirmBooking(t: Turn, now: int, extraTime: map<string, bool>, outcome: Outcome): (u: Turn)
    ensures Follows(t, u) && SameProposal(t, u)
    ensures |u.issues| > |t.issues| ==> u.issues[|t.issues|].mutation.Create?
  {
    if t.conv.draft == None then t
    else
      var d := t.conv.draft.value;
      if !Confirmable(d, now) then WithDraft(t, None)
      else if d.from == t.message then t
      else if Unproved(t, d.proposal.phone) then Offer(t, d.(awaiting := true), t.conv.unread).(answered := true)
      else Book(t, now, d.proposal, extraTime, outcome)
  }

  function RunPrepareCancel(t: Turn, now: int, bookings: seq<Booking>, reference: string): (u: Turn)
    ensures Follows(t, u) && SameProposal(t, u) && u.issues == t.issues
  {
    match Owned(bookings, reference)
    case None => t
    case Some(b) =>
      if b.status == Cancelled then WithChange(t, None)
      else if b.startsAt <= now then t
      else
        var open := WithDraft(t, None);
        var c := t.conv.change;
        if c.Some? && c.value.reference == b.reference && Applicable(c.value, CancelKind, now) then open
        else Propose(open, Change(CancelKind, b.reference, 0, now, t.message))
  }

  function RunConfirmCancel(t: Turn, now: int, bookings: seq<Booking>, outcome: Outcome): (u: Turn)
    ensures Follows(t, u) && SameProposal(t, u)
  {
    if t.conv.change == None then t
    else
      var c := t.conv.change.value;
      if !Applicable(c, CancelKind, now) || c.from == t.message then t
      else match Owned(bookings, c.reference)
        case None => t
        case Some(b) =>
          if b.status == Cancelled then WithChange(t, None).(answered := true)
          else if b.startsAt <= now then WithChange(t, None)
          else
            var sent := Send(t, now, Cancel(b.reference), outcome);
            if outcome == Done then WithChange(sent, None).(answered := true) else sent
  }

  function RunPrepareMove(t: Turn, now: int, bookings: seq<Booking>, reference: string, newStart: Option<int>,
                          free: bool)
    : (u: Turn)
    ensures Follows(t, u) && SameProposal(t, u) && u.issues == t.issues
  {
    match Owned(bookings, reference)
    case None => t
    case Some(b) =>
      if b.status != Confirmed || b.startsAt <= now || newStart == None || newStart.value <= now
         || newStart.value == b.startsAt || !free
      then t
      else
        var open := WithDraft(t, None);
        var c := t.conv.change;
        if c.Some? && c.value.reference == b.reference && c.value.newStart == newStart.value
           && Applicable(c.value, MoveKind, now)
        then open
        else Propose(open, Change(MoveKind, b.reference, newStart.value, now, t.message))
  }

  function RunConfirmMove(t: Turn, now: int, bookings: seq<Booking>, outcome: Outcome): (u: Turn)
    ensures Follows(t, u) && SameProposal(t, u)
  {
    if t.conv.change == None then t
    else
      var c := t.conv.change.value;
      if !Applicable(c, MoveKind, now) || c.from == t.message then t
      else match Owned(bookings, c.reference)
        case None => t
        case Some(b) =>
          if b.status != Confirmed || b.startsAt <= now then WithChange(t, None)
          else
            var sent := Send(t, now, Reschedule(b.reference, c.newStart), outcome);
            match outcome
            case Done => WithChange(sent, None).(answered := true)
            case Taken => WithChange(sent, None)
            case _ => sent
  }

  predicate Changes(call: Call) {
    call.PrepareCancel? || call.ConfirmCancel? || call.PrepareMove? || call.ConfirmMove?
  }

  /** Dispatch: changes need a proved phone first. */
  function Execute(t: Turn, now: int, call: Call): (u: Turn)
    ensures Follows(t, u)
    ensures SameProposal(t, u) || (call.PrepareBooking? && ProposedNow(u, call.proposal, now))
    ensures !call.ConfirmBooking? && !call.ConfirmCancel? && !call.ConfirmMove? ==> u.issues == t.issues
    ensures call.ConfirmBooking? && |u.issues| > |t.issues| ==> u.issues[|t.issues|].mutation.Create?
  {
    if t.identity && t.verified == "" && Changes(call) then t.(answered := true)
    else match call
      case PrepareBooking(parsed, proposal, free) => RunPrepareBooking(t, now, parsed, proposal, free)
      case ConfirmBooking(extraTime, outcome) => RunConfirmBooking(t, now, extraTime, outcome)
      case PrepareCancel(bookings, reference) => RunPrepareCancel(t, now, bookings, reference)
      case ConfirmCancel(bookings, outcome) => RunConfirmCancel(t, now, bookings, outcome)
      case PrepareMove(bookings, reference, start, free) => RunPrepareMove(t, now, bookings, reference, start, free)
      case ConfirmMove(bookings, outcome) => RunConfirmMove(t, now, bookings, outcome)
      case Lookup(answers) => t.(answered := t.answered || answers)
  }

  // ---------------------------------------------------------------- the loop around the tools

  /** Once the application has attempted a confirmed change, the model may not touch changes again. */
  function Step(t: Turn, now: int, call: Call): Turn {
    if t.attempted && Changes(call) then t else Execute(t, now, call)
  }

  /** Calls in order until one of them fixes the answer. */
  function Execution(t: Turn, calls: seq<(int, Call)>): Turn
    decreases |calls|
  {
    if t.answered || calls == [] then t else Execution(Step(t, calls[0].0, calls[0].1), calls[1..])
  }

  /** One answer of the model. */
  datatype Response = Broken | Speech | Tools(calls: seq<(int, Call)>, tokens: nat, stuck: bool)

  /** The calls that get to run: six rounds, eight calls each, within the output budget. */
  function Admitted(responses: seq<Response>, rounds: nat, budget: int): seq<(int, Call)>
    decreases rounds
  {
    if rounds == 0 || responses == [] || budget < LEAST_BUDGET then []
    else match responses[0]
      case Tools(calls, tokens, stuck) =>
        if calls == [] || |calls| > MAX_BATCH || stuck then []
        else calls + Admitted(responses[1..], rounds - 1, budget - tokens)
      case _ => []
  }

  /** What an exact answer means to a pending change. */
  datatype Verdict = Yes | No | Neither

  /** How the application itself reads the message, and the calls it would make for it. */
  datatype Reading = Reading(verdict: Verdict, button: bool, books: bool, now: int, bookings: seq<Booking>,
                             extraTime: map<string, bool>, outcome: Outcome)

  function ConfirmCall(kind: Kind, m: Reading): Call {
    if kind == CancelKind then ConfirmCancel(m.bookings, m.outcome) else ConfirmMove(m.bookings, m.outcome)
  }

  function AnswerChange(t: Turn, m: Reading): Turn {
    if t.conv.change == None || m.verdict == Neither then t
    else
      var c := t.conv.change.value;
      if m.verdict == No || !Applicable(c, c.kind, m.now) || c.from == t.message
      then WithChange(t, None).(answered := true)
      else
        var tried := Execute(t, m.now, ConfirmCall(c.kind, m));
        if tried.answered then tried else tried.(attempted := true)
  }

  function AnswerBooking(t: Turn, m: Reading): Turn {
    if t.answered || t.conv.draft == None || !m.books then t
    else Execute(t, m.now, ConfirmBooking(m.extraTime, m.outcome))
  }

  /** A message from reading to answer; without a model (`modelled` false) only exact answers act. */
  function Reply(t: Turn, m: Reading, modelled: bool, responses: seq<Response>): Turn {
    if t.conv.change == None && t.conv.draft == None && m.button then t.(answered := true)
    else
      var read := AnswerBooking(AnswerChange(t, m), m);
      if modelled then Execution(read, Admitted(responses, MAX_ROUNDS, OUTPUT_BUDGET)) else read
  }

  lemma {:induction false} ExecutionSplits(t: Turn, a: seq<(int, Call)>, b: seq<(int, Call)>)
    ensures Execution(t, a + b) == Execution(Execution(t, a), b)
    decreases |a|
  {
    if a == [] {
      assert a + b == b;
    } else if !t.answered {
      ExecutionSplits(Step(t, a[0].0, a[0].1), a[1..], b);
      assert (a + b)[1..] == a[1..] + b;
    }
  }

  /** What is still admitted in round `round`. */
  function StillAdmitted(responses: seq<Response>, round: nat, budget: int): seq<(int, Call)>
    requires round <= |responses| && round <= MAX_ROUNDS
  {
    Admitted(responses[round..], MAX_ROUNDS - round, budget)
  }

  lemma AdmitsRound(rest: seq<Response>, rounds: nat, budget: int)
    requires rounds > 0 && rest != [] && budget >= LEAST_BUDGET && rest[0].Tools?
    requires rest[0].calls != [] && |rest[0].calls| <= MAX_BATCH && !rest[0].stuck
    ensures Admitted(rest, rounds, budget) == rest[0].calls + Admitted(rest[1..], rounds - 1, budget - rest[0].tokens)
  {
  }

  lemma RoundIsAdmitted(responses: seq<Response>, round: nat, budget: int, r: Response)
    requires round < |responses| && round < MAX_ROUNDS && budget >= LEAST_BUDGET && r == responses[round]
    requires r.Tools? && r.calls != [] && |r.calls| <= MAX_BATCH && !r.stuck
    ensures StillAdmitted(responses, round, budget) == r.calls + StillAdmitted(responses, round + 1, budget - r.tokens)
  {
    var rest := responses[round..];
    assert rest[1..] == responses[round + 1..];
    AdmitsRound(rest, MAX_ROUNDS - round, budget);
  }

  lemma RoundIsExecuted(t: Turn, responses: seq<Response>, round: nat, budget: int, r: Response)
    requires round < |responses| && round < MAX_ROUNDS && budget >= LEAST_BUDGET && r == responses[round]
    requires r.Tools? && r.calls != [] && |r.calls| <= MAX_BATCH && !r.stuck
    ensures
      Execution(t, StillAdmitted(responses, round, budget)) ==
        Execution(Execution(t, r.calls), StillAdmitted(responses, round + 1, budget - r.tokens))
  {
    RoundIsAdmitted(responses, round, budget, r);
    ExecutionSplits(t, r.calls, StillAdmitted(responses, round + 1, budget - r.tokens));
  }

  lemma NothingMoreIsAdmitted(responses: seq<Response>, round: nat, budget: int)
    requires round <= |responses| && round <= MAX_ROUNDS
    requires
      || round == MAX_ROUNDS || round == |responses| || budget < LEAST_BUDGET || !responses[round].Tools?
      || responses[round].calls == [] || |responses[round].calls| > MAX_BATCH || responses[round].stuck
    ensures StillAdmitted(responses, round, budget) == []
  {
  }

  lemma AnsweredStaysAnswered(t: Turn, calls: seq<(int, Call)>)
    requires t.answered || calls == []
    ensures Execution(t, calls) == t
  {
  }

  lemma {:induction false} AdmittedIsBounded(responses: seq<Response>, rounds: nat, budget: int)
    ensures |Admitted(responses, rounds, budget)| <= MAX_BATCH * rounds
    decreases rounds
  {
    if rounds > 0 && responses != [] && budget >= LEAST_BUDGET && responses[0].Tools? {
      AdmittedIsBounded(responses[1..], rounds - 1, budget - responses[0].tokens);
    }
  }
}
