/**
 The session of one chat message: the tools rewrite it in place, and the loop drives them.
 */
module ChatSession {
  import opened Options
  import opened ChatTools

  class Session {
    var customer: string
    var draft: Option<Draft>
    var change: Option<Change>
    var trail: seq<Entry>
    var unread: bool
    var answered: bool
    var attempted: bool
    var issues: seq<Issue>
    const message: string
    const verified: string
    const identity: bool

    constructor (conv: Conv, message: string, verified: string, identity: bool)
      ensures State() == Turn(conv, message, conv.customer, verified, identity, false, false, [])
    {
      customer, draft, change, trail, unread := conv.customer, conv.draft, conv.change, conv.trail, conv.unread;
      this.message, this.verified, this.identity := message, verified, identity;
      answered, attempted, issues := false, false, [];
    }

    function State(): (t: Turn)
      reads this
    {
      var conv := Conv(customer, draft, change, trail, unread);
      Turn(conv, message, customer, verified, identity, answered, attempted, issues)
    }

    method FindOwned(bookings: seq<Booking>, reference: string) returns (b: Option<Booking>)
      ensures b == Owned(bookings, reference)
    {
      var i := 0;
      assert bookings[0..] == bookings;
      while i < |bookings|
        invariant 0 <= i <= |bookings|
        invariant Owned(bookings, reference) == Owned(bookings[i..], reference)
      {
        assert bookings[i..][1..] == bookings[i + 1..];
        if bookings[i].reference == reference {
          return if bookings[i].manageable then Some(bookings[i]) else None;
        }
        i := i + 1;
      }
      return None;
    }

    method CheckServices(services: seq<string>, extraTime: map<string, bool>) returns (p: Problem)
      ensures p == FirstProblem(services, extraTime)
    {
      assert services[0..] == services;
      for i := 0 to |services|
        invariant FirstProblem(services, extraTime) == FirstProblem(services[i..], extraTime)
      {
        assert services[i..][1..] == services[i + 1..];
        if services[i] !in extraTime {
          return LookupFailed;
        }
        if extraTime[services[i]] {
          return ExtraTimeOnly;
        }
      }
      return NoProblem;
    }

    method Prepare(now: int, parsed: bool, proposal: Option<Proposal>, free: bool)
      modifies this
      ensures State() == RunPrepareBooking(old(State()), now, parsed, proposal, free)
    {
      if !parsed {
        return;
      }
      draft := None;
      change := None;
      if proposal == None {
        return;
      }
      var d := Draft(proposal.value, false, now, message);
      if !Confirmable(d, now) || !free {
        return;
      }
      draft := Some(d);
      unread := identity && verified != d.proposal.phone;
      if unread {
        VerificationPrompt();
      } else {
        trail := trail + [Summary(message, d.proposal, now)];
      }
    }

    /** Parks the draft until the phone is proved. */
    method VerificationPrompt()
      requires draft.Some?
      modifies this
      ensures State() == Offer(old(State()), old(draft).value.(awaiting := true), old(unread)).(answered := true)
    {
      var d := draft.value.(awaiting := true);
      draft := Some(d);
      trail := trail + [Prompt(d.from, d.proposal, d.preparedAt)];
      answered := true;
    }

    method Confirm(now: int, extraTime: map<string, bool>, outcome: Outcome)
      modifies this
      ensures State() == RunConfirmBooking(old(State()), now, extraTime, outcome)
    {
      if draft == None {
        return;
      }
      var d := draft.value;
      if !Confirmable(d, now) {
        draft := None;
        return;
      }
      if d.from == message {
        return;
      }
      if identity && verified != d.proposal.phone {
        VerificationPrompt();
        return;
      }
      BookDraft(now, d.proposal, extraTime, outcome);
    }

    /** The last look at the services, and the booking itself. */
    method BookDraft(now: int, p: Proposal, extraTime: map<string, bool>, outcome: Outcome)
      modifies this
      ensures State() == Book(old(State()), now, p, extraTime, outcome)
    {
      var problem := CheckServices(p.services, extraTime);
      if problem != NoProblem {
        if problem == ExtraTimeOnly {
          draft := None;
        }
        return;
      }
      SendToCalendar(now, Create(ToRequest(p, customer)), outcome);
      if outcome == Done {
        draft := None;
        answered := true;
      } else if outcome == Taken {
        draft := None;
      }
    }

    method SendToCalendar(now: int, mutation: Mutation, outcome: Outcome)
      modifies this`issues
      ensures State() == Send(old(State()), now, mutation, outcome)
    {
      var basis := Conv(customer, draft, change, trail, unread);
      issues := issues + [Issue(message, now, mutation, outcome, verified, basis)];
    }

    method PrepareCancellation(now: int, bookings: seq<Booking>, reference: string)
      modifies this
      ensures State() == RunPrepareCancel(old(State()), now, bookings, reference)
    {
      var b := FindOwned(bookings, reference);
      if b == None {
        return;
      }
      if b.value.status == Cancelled {
        change := None;
        return;
      }
      if b.value.startsAt <= now {
        return;
      }
      draft := None;
      var prepared :=
        && change.Some? && change.value.kind == CancelKind && change.value.reference == b.value.reference
        && Applicable(change.value, CancelKind, now);
      if !prepared {
        change := Some(Change(CancelKind, b.value.reference, 0, now, message));
        trail := trail + [Question(change.value)];
      }
    }

    method ConfirmCancellation(now: int, bookings: seq<Booking>, outcome: Outcome)
      modifies this
      ensures State() == RunConfirmCancel(old(State()), now, bookings, outcome)
    {
      if change == None || !Applicable(change.value, CancelKind, now) || change.value.from == message {
        return;
      }
      var b := FindOwned(bookings, change.value.reference);
      if b == None {
        return;
      }
      if b.value.status == Cancelled {
        change := None;
        answered := true;
        return;
      }
      if b.value.startsAt <= now {
        change := None;
        return;
      }
      SendToCalendar(now, Cancel(b.value.reference), outcome);
      if outcome == Done {
        change := None;
        answered := true;
      }
    }

    method PrepareReschedule(now: int, bookings: seq<Booking>, reference: string, newStart: Option<int>, free: bool)
      modifies this
      ensures State() == RunPrepareMove(old(State()), now, bookings, reference, newStart, free)
    {
      var b := FindOwned(bookings, reference);
      if b == None || b.value.status != Confirmed || b.value.startsAt <= now {
        return;
      }
      if newStart == None || newStart.value <= now || newStart.value == b.value.startsAt || !free {
        return;
      }
      draft := None;
      var prepared :=
        && change.Some? && change.value.kind == MoveKind && change.value.reference == b.value.reference
        && change.value.newStart == newStart.value && Applicable(change.value, MoveKind, now);
      if !prepared {
        change := Some(Change(MoveKind, b.value.reference, newStart.value, now, message));
        trail := trail + [Question(change.value)];
      }
    }

    method ConfirmReschedule(now: int, bookings: seq<Booking>, outcome: Outcome)
      modifies this
      ensures State() == RunConfirmMove(old(State()), now, bookings, outcome)
    {
      if change == None || !Applicable(change.value, MoveKind, now) || change.value.from == message {
        return;
      }
      var c := change.value;
      var b := FindOwned(bookings, c.reference);
      if b == None {
        return;
      }
      if b.value.status != Confirmed || b.value.startsAt <= now {
        change := None;
        return;
      }
      SendToCalendar(now, Reschedule(b.value.reference, c.newStart), outcome);
      if outcome == Done {
        change := None;
        answered := true;
      } else if outcome == Taken {
        change := None;
      }
    }

    method Run(now: int, call: Call)
      modifies this
      ensures State() == Execute(old(State()), now, call)
    {
      if identity && verified == "" && Changes(call) {
        answered := true;
        return;
      }
      match call {
        case PrepareBooking(parsed, proposal, free) => Prepare(now, parsed, proposal, free);
        case ConfirmBooking(extraTime, outcome) => Confirm(now, extraTime, outcome);
        case PrepareCancel(bookings, reference) => PrepareCancellation(now, bookings, reference);
        case ConfirmCancel(bookings, outcome) => ConfirmCancellation(now, bookings, outcome);
        case PrepareMove(bookings, reference, start, free) => PrepareReschedule(now, bookings, reference, start, free);
        case ConfirmMove(bookings, outcome) => ConfirmReschedule(now, bookings, outcome);
        case Lookup(answers) => answered := answered || answers;
      }
    }

    /** What the application does about an exact answer before any model is asked. */
    method ReadAnswer(m: Reading)
      requires !answered
      modifies this
      ensures State() == AnswerBooking(AnswerChange(old(State()), m), m)
    {
      if change.Some? && m.verdict != Neither {
        var c := change.value;
        if m.verdict == No || !Applicable(c, c.kind, m.now) || c.from == message {
          change := None;
          answered := true;
          return;
        }
        Run(m.now, ConfirmCall(c.kind, m));
        if answered {
          return;
        }
        attempted := true;
      }
      if draft.Some? && m.books {
        Run(m.now, ConfirmBooking(m.extraTime, m.outcome));
      }
    }

    /** One batch of calls; stops at the call that fixes the answer. */
    method RunBatch(calls: seq<(int, Call)>)
      requires !answered
      modifies this
      ensures State() == Execution(old(State()), calls)
    {
      ghost var start := State();
      assert calls[0..] == calls;
      for i := 0 to |calls|
        invariant !answered
        invariant Execution(start, calls) == Execution(State(), calls[i..])
      {
        assert calls[i..][1..] == calls[i + 1..];
        if !(attempted && Changes(calls[i].1)) {
          Run(calls[i].0, calls[i].1);
        }
        if answered {
          return;
        }
      }
    }

    /** The model's rounds. */
    method RunRounds(responses: seq<Response>)
      requires !answered
      modifies this
      ensures State() == Execution(old(State()), Admitted(responses, MAX_ROUNDS, OUTPUT_BUDGET))
    {
      ghost var start := State();
      var budget := OUTPUT_BUDGET;
      var round := 0;
      assert responses[0..] == responses;
      while round < MAX_ROUNDS
        invariant 0 <= round <= MAX_ROUNDS && round <= |responses|
        invariant !answered
        invariant Execution(start, StillAdmitted(responses, 0, OUTPUT_BUDGET)) ==
                  Execution(State(), StillAdmitted(responses, round, budget))
      {
        if budget < LEAST_BUDGET || round == |responses| || !responses[round].Tools? {
          break;
        }
        var r := responses[round];
        if r.calls == [] || |r.calls| > MAX_BATCH || r.stuck {
          break;
        }
        RoundIsExecuted(State(), responses, round, budget, r);
        budget := budget - r.tokens;
        RunBatch(r.calls);
        round := round + 1;
        if answered {
          AnsweredStaysAnswered(State(), StillAdmitted(responses, round, budget));
          return;
        }
      }
      NothingMoreIsAdmitted(responses, round, budget);
      AnsweredStaysAnswered(State(), StillAdmitted(responses, round, budget));
    }

    method Answer(m: Reading, modelled: bool, responses: seq<Response>)
      requires !answered
      modifies this
      ensures State() == Reply(old(State()), m, modelled, responses)
    {
      if change == None && draft == None && m.button {
        answered := true;
        return;
      }
      ReadAnswer(m);
      if !answered && modelled {
        RunRounds(responses);
      }
    }
  }
}
