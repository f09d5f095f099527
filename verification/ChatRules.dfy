/**
 What each booking tool promises: exactly when it sends, asks, forgets or ends the message.
 */
module ChatRules {
  import opened Options
  import opened ChatTools

  // ---------------------------------------------------------------- what may be acted on

  /** A complete draft of a visit ahead can be confirmed for an hour. */
  lemma CompleteDraftIsConfirmable(d: Draft, now: int)
    requires d.proposal.key != "" && d.proposal.services != [] && d.proposal.staff != "" && d.proposal.phone != ""
    requires d.proposal.duration > 0 && d.from != "" && d.preparedAt + 3600 >= now && now < d.proposal.startsAt
    ensures Confirmable(d, now)
  {
  }

  /** So can a question about a booking, and a move as long as its new time is ahead. */
  lemma RecentChangeIsApplicable(c: Change, now: int)
    requires c.reference != "" && c.from != "" && c.preparedAt + 3600 >= now
    requires c.kind == CancelKind || now < c.newStart
    ensures Applicable(c, c.kind, now)
  {
  }

  ghost predicate FirstWith(bookings: seq<Booking>, reference: string, i: nat) {
    && i < |bookings| && bookings[i].reference == reference
    && forall j :: 0 <= j < i ==> bookings[j].reference != reference
  }

  /** The first booking with the reference decides, and only a manageable one is found. */
  lemma {:induction false} OwnedIsFirst(bookings: seq<Booking>, reference: string, i: nat)
    requires FirstWith(bookings, reference, i)
    ensures Owned(bookings, reference) == if bookings[i].manageable then Some(bookings[i]) else None
    decreases |bookings|
  {
    if i > 0 {
      assert FirstWith(bookings[1..], reference, i - 1);
      OwnedIsFirst(bookings[1..], reference, i - 1);
    }
  }

  lemma {:induction false} NotListedIsNotOwned(bookings: seq<Booking>, reference: string)
    requires forall i :: 0 <= i < |bookings| ==> bookings[i].reference != reference
    ensures Owned(bookings, reference) == None
  {
    if bookings != [] {
      NotListedIsNotOwned(bookings[1..], reference);
    }
  }

  ghost predicate Bookable(extraTime: map<string, bool>, service: string) {
    service in extraTime && !extraTime[service]
  }

  /** The first service that cannot be booked decides: unknown ones fail the check, extra time alone is refused. */
  lemma {:induction false} FirstServiceDecides(services: seq<string>, extraTime: map<string, bool>, i: nat)
    requires i <= |services| && forall j :: 0 <= j < i ==> Bookable(extraTime, services[j])
    requires i < |services| ==> !Bookable(extraTime, services[i])
    ensures FirstProblem(services, extraTime) ==
      if i == |services| then NoProblem else if services[i] in extraTime then ExtraTimeOnly else LookupFailed
    decreases |services|
  {
    if i > 0 {
      assert forall j :: 0 <= j < |services| - 1 ==> services[1..][j] == services[j + 1];
      FirstServiceDecides(services[1..], extraTime, i - 1);
    }
  }

  // ---------------------------------------------------------------- bookings

  /**
   A readable request forgets both proposals; a bookable visit becomes the draft, parked while its phone is
   unproved.
   */
  lemma PrepareKeepsOnlyTheNew(t: Turn, now: int, parsed: bool, proposal: Option<Proposal>, free: bool)
    ensures
      var u := RunPrepareBooking(t, now, parsed, proposal, free);
      var c, d := u.conv, u.conv.draft;
      && u.issues == t.issues && (!parsed ==> u == t)
      && (parsed ==>
            && c.change == None
            && (d.Some? <==> proposal.Some? && free && Confirmable(Draft(proposal.value, false, now, t.message), now))
            && (u.answered <==> t.answered || (d.Some? && d.value.awaiting)))
      && (parsed && d.Some? ==>
            && d.value.proposal == proposal.value && d.value.preparedAt == now && d.value.from == t.message
            && (d.value.awaiting <==> t.identity && t.verified != proposal.value.phone)
            && c.unread == d.value.awaiting)
  {
  }

  /** The customer may answer the draft in this message. */
  predicate Answerable(t: Turn, now: int) {
    t.conv.draft.Some? && Confirmable(t.conv.draft.value, now) && t.conv.draft.value.from != t.message
  }

  predicate ToPark(t: Turn, now: int) {
    Answerable(t, now) && t.identity && t.verified != t.conv.draft.value.proposal.phone
  }

  predicate ToSend(t: Turn, now: int, extraTime: map<string, bool>) {
    && Answerable(t, now) && !ToPark(t, now)
    && FirstProblem(t.conv.draft.value.proposal.services, extraTime) == NoProblem
  }

  /** A booking made or refused for good forgets the draft, and so does a service that only adds time. */
  lemma BookSendsExactly(t: Turn, now: int, p: Proposal, extraTime: map<string, bool>, outcome: Outcome)
    ensures
      var u := Book(t, now, p, extraTime, outcome);
      var problem := FirstProblem(p.services, extraTime);
      && (if problem == NoProblem then
            && |u.issues| == |t.issues| + 1
            && u.issues[|t.issues|].outcome == outcome && u.issues[|t.issues|].at == now
          else u.issues == t.issues)
      && u.conv == (if problem == ExtraTimeOnly || (problem == NoProblem && outcome in {Done, Taken})
                    then t.conv.(draft := None) else t.conv)
      && (u.answered <==> t.answered || (problem == NoProblem && outcome == Done))
  {
  }

  lemma ConfirmSendsExactly(t: Turn, now: int, extraTime: map<string, bool>, outcome: Outcome)
    ensures
      var u := RunConfirmBooking(t, now, extraTime, outcome);
      if ToSend(t, now, extraTime) then
        && |u.issues| == |t.issues| + 1
        && u.issues[|t.issues|].outcome == outcome && u.issues[|t.issues|].at == now
      else u.issues == t.issues
  {
    if Answerable(t, now) && !ToPark(t, now) {
      BookSendsExactly(t, now, t.conv.draft.value.proposal, extraTime, outcome);
    }
  }

  lemma ConfirmEndsExactly(t: Turn, now: int, extraTime: map<string, bool>, outcome: Outcome)
    ensures RunConfirmBooking(t, now, extraTime, outcome).answered <==>
      t.answered || ToPark(t, now) || (ToSend(t, now, extraTime) && outcome == Done)
  {
    if Answerable(t, now) && !ToPark(t, now) {
      BookSendsExactly(t, now, t.conv.draft.value.proposal, extraTime, outcome);
    }
  }

  /** A draft that can no longer be booked is forgotten, one whose phone is unproved is parked. */
  lemma ConfirmForgetsExactly(t: Turn, now: int, extraTime: map<string, bool>, outcome: Outcome)
    requires t.conv.draft.Some?
    ensures
      var c := RunConfirmBooking(t, now, extraTime, outcome).conv;
      var d := t.conv.draft.value;
      && (c.draft == None <==>
            || !Confirmable(d, now)
            || (ToSend(t, now, extraTime) && outcome in {Done, Taken})
            || (Answerable(t, now) && !ToPark(t, now)
                && FirstProblem(d.proposal.services, extraTime) == ExtraTimeOnly))
      && (c.draft.Some? ==> c.draft.value == d.(awaiting := d.awaiting || ToPark(t, now)))
      && c.change == t.conv.change && c.unread == t.conv.unread
  {
    if Answerable(t, now) && !ToPark(t, now) {
      BookSendsExactly(t, now, t.conv.draft.value.proposal, extraTime, outcome);
    }
  }

  // ---------------------------------------------------------------- changes of a booking

  predicate PendingCancel(t: Turn, reference: string, now: int) {
    && t.conv.change.Some? && t.conv.change.value.reference == reference
    && Applicable(t.conv.change.value, CancelKind, now)
  }

  predicate PendingMove(t: Turn, reference: string, newStart: int, now: int) {
    && t.conv.change.Some? && t.conv.change.value.reference == reference && t.conv.change.value.newStart == newStart
    && Applicable(t.conv.change.value, MoveKind, now)
  }

  /** Only a visit ahead is asked about, once; a booking that is cancelled already ends an earlier question. */
  lemma CancelIsAskedExactly(t: Turn, now: int, bookings: seq<Booking>, reference: string)
    ensures
      var u, b := RunPrepareCancel(t, now, bookings, reference), Owned(bookings, reference);
      var open := b.Some? && b.value.status != Cancelled && b.value.startsAt > now;
      && u.issues == t.issues && u.answered == t.answered && u.conv.unread == t.conv.unread
      && u.conv.draft == (if open then None else t.conv.draft)
      && u.conv.change ==
           if b.Some? && b.value.status == Cancelled then None
           else if open && !PendingCancel(t, b.value.reference, now)
           then Some(Change(CancelKind, b.value.reference, 0, now, t.message))
           else t.conv.change
  {
  }

  /** The customer's reply is to the stored question, in another message, and about a booking of theirs. */
  predicate Replied(t: Turn, kind: Kind, now: int, bookings: seq<Booking>) {
    && t.conv.change.Some? && Applicable(t.conv.change.value, kind, now) && t.conv.change.value.from != t.message
    && Owned(bookings, t.conv.change.value.reference).Some?
  }

  lemma CancelIsSentExactly(t: Turn, now: int, bookings: seq<Booking>, outcome: Outcome)
    requires t.conv.change.Some?
    ensures
      var u, b := RunConfirmCancel(t, now, bookings, outcome), Owned(bookings, t.conv.change.value.reference);
      if Replied(t, CancelKind, now, bookings) && b.value.status != Cancelled && b.value.startsAt > now then
        && |u.issues| == |t.issues| + 1 && u.issues[|t.issues|].mutation == Cancel(b.value.reference)
        && u.issues[|t.issues|].outcome == outcome && u.issues[|t.issues|].at == now
      else u.issues == t.issues
  {
  }

  /** A cancelled booking, then or by now, answers the customer; any end but a failure forgets the question. */
  lemma CancelEndsExactly(t: Turn, now: int, bookings: seq<Booking>, outcome: Outcome)
    requires t.conv.change.Some?
    ensures
      var u, b := RunConfirmCancel(t, now, bookings, outcome), Owned(bookings, t.conv.change.value.reference);
      var asked := Replied(t, CancelKind, now, bookings);
      var sent := asked && b.value.status != Cancelled && b.value.startsAt > now;
      && u.conv.draft == t.conv.draft && u.conv.trail == t.conv.trail
      && (u.answered <==>
            t.answered || (asked && b.value.status == Cancelled) || (sent && outcome == Done))
      && u.conv.change == if asked && (!sent || outcome == Done) then None else t.conv.change
  {
  }

  /** Only a confirmed visit ahead can be moved, to another free time ahead. */
  lemma MoveIsAskedExactly(t: Turn, now: int, bookings: seq<Booking>, reference: string, newStart: Option<int>,
                           free: bool)
    ensures
      var u, b := RunPrepareMove(t, now, bookings, reference, newStart, free), Owned(bookings, reference);
      var open :=
        && b.Some? && b.value.status == Confirmed && b.value.startsAt > now && free
        && newStart.Some? && newStart.value > now && newStart.value != b.value.startsAt;
      && u.issues == t.issues && u.answered == t.answered && u.conv.unread == t.conv.unread
      && u.conv.draft == (if open then None else t.conv.draft)
      && u.conv.change ==
           if open && !PendingMove(t, b.value.reference, newStart.value, now)
           then Some(Change(MoveKind, b.value.reference, newStart.value, now, t.message))
           else t.conv.change
  {
  }

  lemma MoveIsSentExactly(t: Turn, now: int, bookings: seq<Booking>, outcome: Outcome)
    requires t.conv.change.Some?
    ensures
      var u, b := RunConfirmMove(t, now, bookings, outcome), Owned(bookings, t.conv.change.value.reference);
      if Replied(t, MoveKind, now, bookings) && b.value.status == Confirmed && b.value.startsAt > now then
        && |u.issues| == |t.issues| + 1
        && u.issues[|t.issues|].mutation == Reschedule(b.value.reference, t.conv.change.value.newStart)
        && u.issues[|t.issues|].outcome == outcome && u.issues[|t.issues|].at == now
      else u.issues == t.issues
  {
  }

  /** A refused time forgets the question but leaves the message open. */
  lemma MoveEndsExactly(t: Turn, now: int, bookings: seq<Booking>, outcome: Outcome)
    requires t.conv.change.Some?
    ensures
      var u, b := RunConfirmMove(t, now, bookings, outcome), Owned(bookings, t.conv.change.value.reference);
      var asked := Replied(t, MoveKind, now, bookings);
      var sent := asked && b.value.status == Confirmed && b.value.startsAt > now;
      && u.conv.draft == t.conv.draft && u.conv.trail == t.conv.trail
      && (u.answered <==> t.answered || (sent && outcome == Done))
      && u.conv.change == if asked && (!sent || outcome == Done || outcome == Taken) then None else t.conv.change
  {
  }

  /** Without a proved phone nothing about a booking is read, asked or sent. */
  lemma ChangesNeedAProof(t: Turn, now: int, call: Call)
    requires call.PrepareCancel? || call.ConfirmCancel? || call.PrepareMove? || call.ConfirmMove?
    requires t.identity && t.verified == ""
    ensures
      var u := Execute(t, now, call);
      u.answered && u.issues == t.issues && u.conv == t.conv
  {
  }

  /** A proved phone, or a deployment without proofs, lets every tool do its own work. */
  lemma ToolsDoTheirWork(t: Turn, now: int, call: Call)
    requires t.identity && t.verified == "" ==> call.PrepareBooking? || call.ConfirmBooking? || call.Lookup?
    ensures
      var u := Execute(t, now, call);
      match call
      case PrepareBooking(parsed, proposal, free) => u == RunPrepareBooking(t, now, parsed, proposal, free)
      case ConfirmBooking(extraTime, outcome) => u == RunConfirmBooking(t, now, extraTime, outcome)
      case PrepareCancel(bookings, reference) => u == RunPrepareCancel(t, now, bookings, reference)
      case ConfirmCancel(bookings, outcome) => u == RunConfirmCancel(t, now, bookings, outcome)
      case PrepareMove(bookings, reference, at, free) => u == RunPrepareMove(t, now, bookings, reference, at, free)
      case ConfirmMove(bookings, outcome) => u == RunConfirmMove(t, now, bookings, outcome)
      case Lookup(answers) =>
        u.conv == t.conv && u.issues == t.issues && (u.answered <==> t.answered || answers)
  {
  }

  // ---------------------------------------------------------------- exact answers and the model

  /** An exact no, or a yes that comes too late or to nothing new, ends the question and sends nothing. */
  lemma NoEndsTheQuestion(t: Turn, m: Reading)
    requires t.conv.change.Some? && !t.answered
    requires m.verdict == No ||
      (m.verdict == Yes &&
       (t.conv.change.value.from == t.message || !Applicable(t.conv.change.value, t.conv.change.value.kind, m.now)))
    ensures
      var u := AnswerBooking(AnswerChange(t, m), m);
      u.answered && u.issues == t.issues && u.conv == t.conv.(change := None)
  {
  }

  /**
   An exact yes carries out the question with the tool for it; if that does not end the message, it was the
   one attempt.
   */
  lemma YesTriesOnce(t: Turn, m: Reading)
    requires t.conv.change.Some? && !t.answered && m.verdict == Yes
    requires t.conv.change.value.from != t.message && Applicable(t.conv.change.value, t.conv.change.value.kind, m.now)
    ensures
      var u := AnswerChange(t, m);
      var tool := if t.conv.change.value.kind == CancelKind then ConfirmCancel(m.bookings, m.outcome)
                  else ConfirmMove(m.bookings, m.outcome);
      && u.(attempted := t.attempted) == Execute(t, m.now, tool)
      && (u.attempted <==> t.attempted || !u.answered)
  {
  }

  /** Anything else leaves the question alone, and only words that book confirm a draft. */
  lemma OtherwiseOnlyBookingWords(t: Turn, m: Reading)
    requires !t.answered && (m.verdict == Neither || t.conv.change == None)
    ensures
      AnswerBooking(AnswerChange(t, m), m) ==
        if t.conv.draft.Some? && m.books then Execute(t, m.now, ConfirmBooking(m.extraTime, m.outcome)) else t
  {
  }

  /** A button with nothing left to answer ends the message; without a model nothing else happens. */
  lemma ReplyEnds(t: Turn, m: Reading, modelled: bool, responses: seq<Response>)
    requires !t.answered
    ensures
      var u, read := Reply(t, m, modelled, responses), AnswerBooking(AnswerChange(t, m), m);
      if t.conv.change == None && t.conv.draft == None && m.button
      then u.answered && u.issues == t.issues && u.conv == t.conv
      else read.answered || !modelled ==> u == read
  {
  }

  // ---------------------------------------------------------------- the model's rounds

  function Tokens(responses: seq<Response>): nat {
    if responses == [] then 0 else (if responses[0].Tools? then responses[0].tokens else 0) + Tokens(responses[1..])
  }

  function Together(responses: seq<Response>): seq<(int, Call)> {
    if responses == [] then [] else (if responses[0].Tools? then responses[0].calls else []) + Together(responses[1..])
  }

  /** One to eight calls that make progress, while at least 512 of the output budget is left. */
  predicate Runs(r: Response, left: int) { left >= 512 && r.Tools? && 1 <= |r.calls| <= 8 && !r.stuck }

  /** All of the first `n` answers run, and the next one does not. */
  ghost predicate Ends(responses: seq<Response>, rounds: nat, budget: int, n: nat) {
    && n <= |responses| && n <= rounds
    && (forall i :: 0 <= i < n ==> Runs(responses[i], budget - Tokens(responses[..i])))
    && (n == |responses| || n == rounds || !Runs(responses[n], budget - Tokens(responses[..n])))
  }

  lemma EndsLater(responses: seq<Response>, rounds: nat, budget: int, n: nat)
    requires n > 0 && Ends(responses, rounds, budget, n)
    ensures Ends(responses[1..], rounds - 1, budget - responses[0].tokens, n - 1) && Runs(responses[0], budget)
  {
    assert Runs(responses[0], budget - Tokens(responses[..0]));
    forall i | 0 <= i <= n - 1
      ensures budget - responses[0].tokens - Tokens(responses[1..][..i]) == budget - Tokens(responses[..i + 1])
    {
      assert responses[..i + 1][1..] == responses[1..][..i];
    }
    forall i | 0 <= i < n - 1
      ensures Runs(responses[1..][i], budget - responses[0].tokens - Tokens(responses[1..][..i]))
    {
      assert Runs(responses[i + 1], budget - Tokens(responses[..i + 1]));
    }
  }

  /** The calls that run are those of the first answers, up to the first that does not, in order. */
  lemma {:induction false} AdmittedIsPrefix(responses: seq<Response>, rounds: nat, budget: int, n: nat)
    requires Ends(responses, rounds, budget, n)
    ensures Admitted(responses, rounds, budget) == Together(responses[..n])
    decreases n
  {
    if n > 0 {
      EndsLater(responses, rounds, budget, n);
      AdmittedIsPrefix(responses[1..], rounds - 1, budget - responses[0].tokens, n - 1);
      assert responses[..n][1..] == responses[1..][..n - 1];
    } else {
      assert responses[..0] == [];
    }
  }

  /** Six rounds and 16000 tokens. */
  lemma RepliesRunSixRounds(t: Turn, m: Reading, responses: seq<Response>, n: nat)
    requires !t.answered && !(t.conv.change == None && t.conv.draft == None && m.button)
    requires Ends(responses, 6, 16000, n)
    ensures Reply(t, m, true, responses) ==
            Execution(AnswerBooking(AnswerChange(t, m), m), Together(responses[..n]))
  {
    AdmittedIsPrefix(responses, 6, 16000, n);
  }

  /** One call after another until one fixes the answer; after an attempted change no call touches changes again. */
  lemma CallsRunInOrder(t: Turn, calls: seq<(int, Call)>, next: (int, Call))
    requires !Execution(t, calls).answered
    ensures
      var before, change := Execution(t, calls), next.1;
      Execution(t, calls + [next]) ==
        if before.attempted
           && (change.PrepareCancel? || change.ConfirmCancel? || change.PrepareMove? || change.ConfirmMove?)
        then before else Execute(before, next.0, change)
  {
    ExecutionSplits(t, calls, [next]);
    assert [next][1..] == [];
  }

  lemma AnswersAreFinal(t: Turn, calls: seq<(int, Call)>, more: seq<(int, Call)>)
    requires Execution(t, calls).answered
    ensures Execution(t, calls + more) == Execution(t, calls)
  {
    ExecutionSplits(t, calls, more);
  }
}
