/**
 Conversations under a model that calls any tools in any order.

 Messages of one conversation may be handled at the same time, die at any point, be handled
 again, and save whatever they hold over each other.  What a message may send to the calendar
 is still exactly what the conversation it opened was already asking about.
 */
module ChatRuns {
  import opened Options
  import opened ChatTools

  /** A message being handled, the conversation it opened and the profile it was opened for. */
  datatype Live = Live(turn: Turn, start: Conv, profile: string)

  /** A proposal and the instant it was made at. */
  datatype Origin = Origin(proposal: Proposal, at: int)

  /** The stored conversation, the messages ever handled and the keys ever drawn. */
  datatype World = World(identity: bool, store: Conv, live: map<nat, Live>, keys: map<string, Origin>)

  datatype Move =
    | Open(n: nat, message: string, customer: string, verified: string)
    | Tool(n: nat, now: int, call: Call)
    | Attempt(n: nat)
    | Forget(n: nat, draftToo: bool, ends: bool)
    | Verify(n: nat, now: int, customer: string, phone: string)
    | Resume(n: nat, now: int)
    | Save(n: nat)
    | StaffReply

  /** A chat that was merged into another profile keeps only the draft that waits for its phone. */
  function Opened(c: Conv, identity: bool, customer: string, verified: string): Conv {
    if !identity || c.customer == customer then c
    else
      var waits := c.draft.Some? && c.draft.value.awaiting && c.draft.value.proposal.phone == verified;
      c.(customer := customer, draft := if waits then c.draft else None, change := None)
  }

  /** A proved phone brings its parked draft back, with its details and under this message. */
  function Resumed(t: Turn, now: int): (u: Turn)
    ensures SameProposal(t, u) && u.identity == t.identity
  {
    if t.conv.draft == None || !t.conv.draft.value.awaiting then t
    else
      var d := t.conv.draft.value;
      if t.verified == "" || d.proposal.phone != t.verified || !Confirmable(d, now) then WithDraft(t, None)
      else Offer(t, d.(awaiting := false, from := t.message), false)
  }

  /** A code was right: the profile changes, and only a parked draft of that phone survives. */
  function Verified(t: Turn, now: int, customer: string, phone: string): (u: Turn)
    ensures SameProposal(t, u) && u.identity == t.identity
  {
    var u := WithChange(t.(customer := customer, verified := phone, conv := t.conv.(customer := customer)), None);
    if u.conv.draft.Some? && u.conv.draft.value.awaiting then Resumed(u, now) else WithDraft(u, None)
  }

  /** A chat that changed hands keeps nothing but the draft that waits for the phone just proved. */
  lemma OpenedExactly(c: Conv, identity: bool, customer: string, verified: string)
    ensures
      var u := Opened(c, identity, customer, verified);
      && (!identity || c.customer == customer ==> u == c)
      && (identity && c.customer != customer ==>
            && u.customer == customer && u.change == None && u.trail == c.trail && u.unread == c.unread
            && (u.draft.Some? <==>
                  c.draft.Some? && c.draft.value.awaiting && c.draft.value.proposal.phone == verified)
            && (u.draft.Some? ==> u.draft == c.draft))
  {
  }

  /** The parked draft's own phone is proved and it can still be booked. */
  predicate BroughtBack(t: Turn, now: int) {
    && t.conv.draft.Some? && t.conv.draft.value.awaiting
    && t.verified != "" && t.conv.draft.value.proposal.phone == t.verified && Confirmable(t.conv.draft.value, now)
  }

  /** A parked draft is brought back with its details under this message, or forgotten; another draft is left alone. */
  lemma ResumedExactly(t: Turn, now: int)
    ensures
      var u := Resumed(t, now);
      && u == t.(conv := u.conv) && u.conv.change == t.conv.change && u.conv.customer == t.conv.customer
      && (t.conv.draft == None || !t.conv.draft.value.awaiting ==> u == t)
      && (BroughtBack(t, now) ==>
            var d := t.conv.draft.value;
            && u.conv.draft == Some(d.(awaiting := false, from := t.message)) && !u.conv.unread
            && u.conv.trail == t.conv.trail + [Summary(t.message, d.proposal, d.preparedAt)])
      && (t.conv.draft.Some? && t.conv.draft.value.awaiting && !BroughtBack(t, now) ==>
            u.conv == t.conv.(draft := None))
  {
  }

  /** A right code makes the chat the profile's, and of its proposals only a parked draft of that phone survives. */
  lemma VerifiedExactly(t: Turn, now: int, customer: string, phone: string)
    ensures
      var u := Verified(t, now, customer, phone);
      && u.customer == customer && u.conv.customer == customer && u.verified == phone && u.conv.change == None
      && u.issues == t.issues && u.message == t.message && u.attempted == t.attempted && u.answered == t.answered
      && (u.conv.draft.Some? <==> BroughtBack(t.(verified := phone), now))
      && (u.conv.draft.Some? ==>
            u.conv.draft == Some(t.conv.draft.value.(awaiting := false, from := t.message)))
  {
  }

  /** Keys are never drawn twice. */
  predicate FreshKey(keys: map<string, Origin>, move: Move) {
    move.Tool? && move.call.PrepareBooking? && move.call.proposal.Some? ==> move.call.proposal.value.key !in keys
  }

  function Drawn(keys: map<string, Origin>, move: Move): map<string, Origin> {
    if move.Tool? && move.call.PrepareBooking? && move.call.proposal.Some?
    then keys[move.call.proposal.value.key := Origin(move.call.proposal.value, move.now)] else keys
  }

  function Act(t: Turn, move: Move): Turn {
    match move
    case Tool(_, now, call) => Step(t, now, call)
    case Attempt(_) => t.(attempted := true)
    case Forget(_, draftToo, ends) => WithChange(if draftToo then WithDraft(t, None) else t, None).(answered := ends)
    case Verify(_, now, customer, phone) => Verified(t, now, customer, phone).(answered := true)
    case Resume(_, now) => Resumed(t, now).(answered := true)
    case _ => t
  }

  /** What each move but the tools does to a message, and that a code, a resumption and an answer end it. */
  lemma ActsExactly(t: Turn, n: nat, now: int, customer: string, phone: string, draftToo: bool, ends: bool, call: Call)
    ensures Act(t, Tool(n, now, call)) == Step(t, now, call)
    ensures
      var u := Act(t, Attempt(n));
      u.attempted && u == t.(attempted := true)
    ensures
      var u := Act(t, Forget(n, draftToo, ends));
      && u == t.(conv := u.conv, answered := u.answered) && (u.answered <==> ends)
      && u.conv == t.conv.(change := None, draft := u.conv.draft)
      && u.conv.draft == if draftToo then None else t.conv.draft
    ensures Act(t, Verify(n, now, customer, phone)) == Verified(t, now, customer, phone).(answered := true)
    ensures Act(t, Resume(n, now)) == Resumed(t, now).(answered := true)
  {
  }

  function Do(w: World, move: Move): World {
    match move
    case Open(n, message, customer, verified) =>
      if n in w.live then w
      else
        var c := Opened(w.store, w.identity, customer, verified);
        var t := Turn(c, message, customer, verified, w.identity, false, false, []);
        w.(store := c, live := w.live[n := Live(t, c, customer)])
    case Save(n) => if n in w.live then w.(store := w.live[n].turn.conv) else w
    case StaffReply => w.(store := w.store.(draft := None, change := None))
    case _ =>
      if move.n !in w.live || w.live[move.n].turn.answered || !FreshKey(w.keys, move) then w
      else
        var l := w.live[move.n];
        w.(live := w.live[move.n := l.(turn := Act(l.turn, move))], keys := Drawn(w.keys, move))
  }

  /**
   Opening stores the conversation as opened, saving stores it as held, and an answer of staff forgets both
   proposals.
   */
  lemma MovesExactly(w: World, n: nat, message: string, customer: string, verified: string)
    ensures n !in w.live ==>
      var u := Do(w, Open(n, message, customer, verified));
      var c := Opened(w.store, w.identity, customer, verified);
      && u.store == c && n in u.live && u.live[n].start == c && u.live[n].profile == customer
      && u.live == w.live[n := u.live[n]] && u.keys == w.keys
      && u.live[n].turn == Turn(c, message, customer, verified, w.identity, false, false, [])
    ensures n in w.live ==>
      && Do(w, Open(n, message, customer, verified)) == w
      && Do(w, Save(n)) == w.(store := w.live[n].turn.conv)
    ensures
      var u := Do(w, StaffReply);
      && u.store.draft == None && u.store.change == None
      && u == w.(store := w.store.(draft := None, change := None))
  {
  }

  function Start(identity: bool, customer: string): World {
    World(identity, Conv(customer, None, None, [], false), map[], map[])
  }

  function Run(w: World, moves: seq<Move>): World
    decreases |moves|
  {
    if moves == [] then w else Do(Run(w, moves[..|moves| - 1]), moves[|moves| - 1])
  }

  // ---------------------------------------------------------------- the invariant

  function Last(trail: seq<Entry>): Option<Entry> {
    if trail == [] then None else Some(trail[|trail| - 1])
  }

  /** One proposal at a time, and it is what the chat was last answered about. */
  ghost predicate ConvOk(c: Conv) {
    && (c.draft == None || c.change == None)
    && (c.draft.Some? ==> Last(c.trail) == Some(Said(c.draft.value)))
    && (c.change.Some? ==> Last(c.trail) == Some(Question(c.change.value)))
  }

  /** What is left of the opened conversation, or proposals made under this very message. */
  ghost predicate Own(t: Turn, start: Conv) {
    if |t.conv.trail| == |start.trail| then
      (t.conv.draft == None || t.conv.draft == start.draft) && (t.conv.change == None || t.conv.change == start.change)
    else
      && (t.conv.draft.Some? ==> t.conv.draft.value.from == t.message)
      && (t.conv.change.Some? ==> t.conv.change.value.from == t.message)
  }

  /** The request books the proposal as it was made, and nothing of it is missing. */
  ghost predicate Books(r: Request, p: Proposal) {
    && r.key == p.key && r.name == p.name && r.phone == p.phone && r.services == p.services
    && r.staff == p.staff && r.startsAt == p.startsAt && r.duration == p.duration
    && r.key != "" && r.phone != "" && r.services != [] && r.staff != "" && r.duration > 0
  }

  /** The request carries out what the opened conversation was asking about, unaltered and in time. */
  ghost predicate Agreed(i: Issue, start: Conv, identity: bool) {
    match i.mutation
    case Create(r) =>
      && start.draft.Some?
      && var d := start.draft.value;
         && Books(r, d.proposal) && d.from != "" && d.from != i.message
         && i.at - d.preparedAt <= 3600 && i.at < d.proposal.startsAt
         && (identity ==> i.verified == d.proposal.phone)
    case Cancel(reference) =>
      && start.change.Some?
      && var c := start.change.value;
         && c.kind == CancelKind && c.reference == reference != "" && c.from != "" && c.from != i.message
         && i.at - c.preparedAt <= 3600
    case Reschedule(reference, newStart) =>
      && start.change.Some?
      && var c := start.change.value;
         && c.kind == MoveKind && c.reference == reference != "" && c.newStart == newStart
         && c.from != "" && c.from != i.message && i.at - c.preparedAt <= 3600 && i.at < newStart
  }

  ghost predicate IssuesOk(t: Turn, start: Conv) {
    && (forall k :: 0 <= k < |t.issues| ==>
          && t.issues[k].message == t.message && Agreed(t.issues[k], start, t.identity)
          && t.issues[k].basis.trail == start.trail)
    && (forall k :: 0 <= k < |t.issues| && t.issues[k].outcome == Done ==> k == |t.issues| - 1 && t.answered)
  }

  ghost predicate TurnOk(t: Turn, start: Conv) {
    && ConvOk(t.conv) && ConvOk(start) && start.trail <= t.conv.trail
    && (!t.answered ==> Own(t, start))
    && IssuesOk(t, start)
  }

  ghost predicate KeyOk(keys: map<string, Origin>, c: Conv) {
    c.draft.Some? ==>
      var d := c.draft.value;
      d.proposal.key in keys && keys[d.proposal.key] == Origin(d.proposal, d.preparedAt)
  }

  /** Until the answer is fixed the message acts for the profile and the phone it was opened with. */
  ghost predicate ForProfile(t: Turn, profile: string) {
    && (!t.answered ==> t.customer == profile)
    && (forall k :: 0 <= k < |t.issues| && t.issues[k].mutation.Create? ==>
          t.issues[k].mutation.request.customer == profile)
  }

  /** The trail speaks of drawn keys only, and holds the details of the draft unless it is unread. */
  ghost predicate ReadOk(keys: map<string, Origin>, c: Conv) {
    && (forall e :: e in c.trail && !e.Question? ==> e.proposal.key in keys)
    && (c.draft.Some? ==>
          var d := c.draft.value;
          && d.proposal.key in keys
          && (if c.unread then d.awaiting && forall e :: e in c.trail && e.Summary? ==> e.proposal.key != d.proposal.key
              else Summary(d.from, d.proposal, d.preparedAt) in c.trail))
  }

  lemma {:induction false} OwnedMatches(bookings: seq<Booking>, reference: string)
    ensures Owned(bookings, reference).Some? ==>
      var b := Owned(bookings, reference).value;
      b in bookings && b.reference == reference && b.manageable
  {
    if bookings != [] && bookings[0].reference != reference {
      OwnedMatches(bookings[1..], reference);
    }
  }

  /** A new proposal is asked under this message. */
  lemma OfferKeeps(t: Turn, start: Conv, d: Draft, unread: bool)
    requires TurnOk(t, start) && !t.answered && d.from == t.message
    ensures TurnOk(Offer(WithChange(WithDraft(t, None), None), d, unread), start)
  {
  }

  lemma ProposeKeeps(t: Turn, start: Conv, c: Change)
    requires TurnOk(t, start) && !t.answered && c.from == t.message
    ensures TurnOk(Propose(WithDraft(t, None), c), start)
  {
  }

  lemma DropKeeps(t: Turn, start: Conv, draftToo: bool, changeToo: bool)
    requires TurnOk(t, start)
    ensures TurnOk(t.(conv := t.conv.(draft := if draftToo then None else t.conv.draft,
                                      change := if changeToo then None else t.conv.change)), start)
  {
  }

  /** A parked draft ends the message. */
  lemma PromptKeeps(t: Turn, start: Conv, d: Draft)
    requires TurnOk(t, start) && !t.answered && t.conv.change == None
    ensures TurnOk(Offer(t, d, t.conv.unread).(answered := true), start)
  {
  }

  lemma SendKeeps(t: Turn, start: Conv, now: int, mutation: Mutation, outcome: Outcome)
    requires TurnOk(t, start) && !t.answered && t.conv.trail == start.trail
    requires Agreed(Issue(t.message, now, mutation, outcome, t.verified, t.conv), start, t.identity)
    ensures outcome != Done ==> TurnOk(Send(t, now, mutation, outcome), start)
    ensures outcome == Done ==> TurnOk(Send(t, now, mutation, outcome).(answered := true), start)
  {
  }

  lemma PrepareBookingKeeps(t: Turn, start: Conv, now: int, call: Call)
    requires TurnOk(t, start) && !t.answered && call.PrepareBooking?
    ensures TurnOk(Execute(t, now, call), start)
  {
    if call.parsed {
      DropKeeps(t, start, true, true);
      if call.proposal.Some? {
        var d := Draft(call.proposal.value, false, now, t.message);
        OfferKeeps(t, start, d, false);
        OfferKeeps(t, start, d.(awaiting := true), true);
      }
    }
  }

  lemma AnsweredKeeps(t: Turn, start: Conv, attempted: bool)
    requires TurnOk(t, start) && !t.answered
    ensures TurnOk(t.(answered := true), start) && TurnOk(t.(attempted := attempted), start)
  {
  }

  lemma BookKeeps(t: Turn, start: Conv, now: int, extraTime: map<string, bool>, outcome: Outcome)
    requires TurnOk(t, start) && !t.answered && t.conv.draft.Some? && Confirmable(t.conv.draft.value, now)
    requires t.conv.draft.value.from != t.message && !Unproved(t, t.conv.draft.value.proposal.phone)
    ensures TurnOk(Book(t, now, t.conv.draft.value.proposal, extraTime, outcome), start)
  {
    var request := Create(ToRequest(t.conv.draft.value.proposal, t.customer));
    DropKeeps(t, start, true, false);
    SendKeeps(t, start, now, request, outcome);
    var sent := Send(t, now, request, outcome);
    DropKeeps(if outcome == Done then sent.(answered := true) else sent, start, true, false);
  }

  lemma ConfirmBookingKeeps(t: Turn, start: Conv, now: int, extraTime: map<string, bool>, outcome: Outcome)
    requires TurnOk(t, start) && !t.answered
    ensures TurnOk(RunConfirmBooking(t, now, extraTime, outcome), start)
  {
    if t.conv.draft.Some? {
      var d := t.conv.draft.value;
      DropKeeps(t, start, true, false);
      PromptKeeps(t, start, d.(awaiting := true));
      if Confirmable(d, now) && d.from != t.message && !Unproved(t, d.proposal.phone) {
        BookKeeps(t, start, now, extraTime, outcome);
      }
    }
  }

  lemma PrepareChangeKeeps(t: Turn, start: Conv, now: int, call: Call)
    requires TurnOk(t, start) && !t.answered && (call.PrepareCancel? || call.PrepareMove?)
    ensures TurnOk(Execute(t, now, call), start)
  {
    AnsweredKeeps(t, start, t.attempted);
    DropKeeps(t, start, true, false);
    DropKeeps(t, start, false, true);
    var b := Owned(call.bookings, call.reference);
    if b.Some? {
      ProposeKeeps(t, start, Change(CancelKind, b.value.reference, 0, now, t.message));
      if call.PrepareMove? && call.newStart.Some? {
        ProposeKeeps(t, start, Change(MoveKind, b.value.reference, call.newStart.value, now, t.message));
      }
    }
  }

  lemma SentChangeKeeps(t: Turn, start: Conv, now: int, mutation: Mutation, outcome: Outcome)
    requires TurnOk(t, start) && !t.answered && t.conv.trail == start.trail
    requires Agreed(Issue(t.message, now, mutation, outcome, t.verified, t.conv), start, t.identity)
    ensures
      var sent := Send(t, now, mutation, outcome);
      if outcome == Done then TurnOk(WithChange(sent, None).(answered := true), start)
      else TurnOk(sent, start) && TurnOk(WithChange(sent, None), start)
  {
    SendKeeps(t, start, now, mutation, outcome);
    var sent := Send(t, now, mutation, outcome);
    DropKeeps(if outcome == Done then sent.(answered := true) else sent, start, false, true);
  }

  lemma ConfirmCancelKeeps(t: Turn, start: Conv, now: int, call: Call)
    requires TurnOk(t, start) && !t.answered && call.ConfirmCancel?
    ensures TurnOk(RunConfirmCancel(t, now, call.bookings, call.outcome), start)
  {
    if t.conv.change.Some? {
      var c := t.conv.change.value;
      DropKeeps(t, start, false, true);
      AnsweredKeeps(WithChange(t, None), start, t.attempted);
      OwnedMatches(call.bookings, c.reference);
      if c.from != t.message && Applicable(c, CancelKind, now) {
        SentChangeKeeps(t, start, now, Cancel(c.reference), call.outcome);
      }
    }
  }

  lemma ConfirmMoveKeeps(t: Turn, start: Conv, now: int, call: Call)
    requires TurnOk(t, start) && !t.answered && call.ConfirmMove?
    ensures TurnOk(RunConfirmMove(t, now, call.bookings, call.outcome), start)
  {
    if t.conv.change.Some? {
      var c := t.conv.change.value;
      DropKeeps(t, start, false, true);
      OwnedMatches(call.bookings, c.reference);
      if c.from != t.message && Applicable(c, MoveKind, now) {
        SentChangeKeeps(t, start, now, Reschedule(c.reference, c.newStart), call.outcome);
      }
    }
  }

  lemma ConfirmChangeKeeps(t: Turn, start: Conv, now: int, call: Call)
    requires TurnOk(t, start) && !t.answered && (call.ConfirmCancel? || call.ConfirmMove?)
    ensures TurnOk(Execute(t, now, call), start)
  {
    AnsweredKeeps(t, start, t.attempted);
    if call.ConfirmCancel? {
      ConfirmCancelKeeps(t, start, now, call);
    } else {
      ConfirmMoveKeeps(t, start, now, call);
    }
  }

  lemma ExecuteKeeps(t: Turn, start: Conv, now: int, call: Call)
    requires TurnOk(t, start) && !t.answered
    ensures TurnOk(Execute(t, now, call), start)
  {
    match call
    case PrepareBooking(_, _, _) => PrepareBookingKeeps(t, start, now, call);
    case ConfirmBooking(extraTime, outcome) => ConfirmBookingKeeps(t, start, now, extraTime, outcome);
    case PrepareCancel(_, _) => PrepareChangeKeeps(t, start, now, call);
    case PrepareMove(_, _, _, _) => PrepareChangeKeeps(t, start, now, call);
    case ConfirmCancel(_, _) => ConfirmChangeKeeps(t, start, now, call);
    case ConfirmMove(_, _) => ConfirmChangeKeeps(t, start, now, call);
    case Lookup(_) => AnsweredKeeps(t, start, t.attempted);
  }

  lemma ResumedKeeps(t: Turn, start: Conv, now: int)
    requires TurnOk(t, start) && !t.answered
    ensures TurnOk(Resumed(t, now).(answered := true), start)
  {
    AnsweredKeeps(t, start, t.attempted);
    DropKeeps(t.(answered := true), start, true, false);
    if t.conv.draft.Some? {
      var d := t.conv.draft.value.(awaiting := false, from := t.message);
      OfferKeeps(t, start, d, false);
      var u := Offer(WithChange(WithDraft(t, None), None), d, false);
      AnsweredKeeps(u, start, t.attempted);
    }
  }

  lemma ActKeeps(t: Turn, start: Conv, move: Move)
    requires TurnOk(t, start) && !t.answered && !move.Open? && !move.Save? && !move.StaffReply?
    ensures TurnOk(Act(t, move), start)
  {
    match move
    case Tool(_, now, call) => ExecuteKeeps(t, start, now, call);
    case Attempt(_) => AnsweredKeeps(t, start, true);
    case Forget(_, draftToo, ends) =>
      DropKeeps(t, start, draftToo, true);
      AnsweredKeeps(WithChange(if draftToo then WithDraft(t, None) else t, None), start, t.attempted);
    case Verify(_, now, customer, phone) =>
      var u := t.(customer := customer, verified := phone, conv := t.conv.(customer := customer));
      assert TurnOk(u, start);
      DropKeeps(u, start, false, true);
      DropKeeps(u, start, true, true);
      ResumedKeeps(WithChange(u, None), start, now);
      AnsweredKeeps(WithDraft(WithChange(u, None), None), start, t.attempted);
    case Resume(_, now) => ResumedKeeps(t, start, now);
  }

  /** A booking is sent only while every service of the draft is still sold and none of them merely adds time. */
  lemma {:induction false} NoProblemMeansSold(services: seq<string>, extraTime: map<string, bool>)
    ensures FirstProblem(services, extraTime) == NoProblem <==>
      forall i :: 0 <= i < |services| ==> services[i] in extraTime && !extraTime[services[i]]
  {
    if services != [] {
      NoProblemMeansSold(services[1..], extraTime);
      assert services == [services[0]] + services[1..];
    }
  }

  lemma OnlySoldServicesAreBooked(t: Turn, now: int, extraTime: map<string, bool>, outcome: Outcome)
    requires |RunConfirmBooking(t, now, extraTime, outcome).issues| > |t.issues|
    ensures t.conv.draft.Some?
    ensures forall s :: s in t.conv.draft.value.proposal.services ==> s in extraTime && !extraTime[s]
  {
    NoProblemMeansSold(t.conv.draft.value.proposal.services, extraTime);
  }

  // ---------------------------------------------------------------- one whole message

  lemma {:induction false} ExecutionKeeps(t: Turn, start: Conv, calls: seq<(int, Call)>)
    requires TurnOk(t, start)
    ensures TurnOk(Execution(t, calls), start)
    decreases |calls|
  {
    if !t.answered && calls != [] {
      if !(t.attempted && Changes(calls[0].1)) {
        ExecuteKeeps(t, start, calls[0].0, calls[0].1);
      }
      ExecutionKeeps(Step(t, calls[0].0, calls[0].1), start, calls[1..]);
    }
  }

  lemma ReadAnswerKeeps(t: Turn, start: Conv, m: Reading)
    requires TurnOk(t, start) && !t.answered
    ensures TurnOk(AnswerBooking(AnswerChange(t, m), m), start)
  {
    if t.conv.change.Some? {
      DropKeeps(t, start, false, true);
      AnsweredKeeps(WithChange(t, None), start, t.attempted);
      var tried := Execute(t, m.now, ConfirmCall(t.conv.change.value.kind, m));
      ExecuteKeeps(t, start, m.now, ConfirmCall(t.conv.change.value.kind, m));
      if !tried.answered {
        AnsweredKeeps(tried, start, true);
      }
    }
    var read := AnswerChange(t, m);
    if !read.answered {
      ExecuteKeeps(read, start, m.now, ConfirmBooking(m.extraTime, m.outcome));
    }
  }

  /**
   A message handled from reading to answer sends only what its conversation was asking about, and
   succeeds at most once.
   */
  lemma ReplyKeeps(t: Turn, m: Reading, modelled: bool, responses: seq<Response>)
    requires ConvOk(t.conv) && !t.answered && t.issues == []
    ensures TurnOk(Reply(t, m, modelled, responses), t.conv)
  {
    AnsweredKeeps(t, t.conv, t.attempted);
    ReadAnswerKeeps(t, t.conv, m);
    ExecutionKeeps(AnswerBooking(AnswerChange(t, m), m), t.conv, Admitted(responses, MAX_ROUNDS, OUTPUT_BUDGET));
  }

  function ChangesSent(issues: seq<Issue>): nat {
    if issues == [] then 0
    else ChangesSent(issues[..|issues| - 1]) + if issues[|issues| - 1].mutation.Create? then 0 else 1
  }

  lemma SentAppend(before: seq<Issue>, after: seq<Issue>)
    requires before <= after && |after| <= |before| + 1
    ensures
      ChangesSent(after) == ChangesSent(before)
        + if |after| == |before| || after[|before|].mutation.Create? then 0 else 1
  {
    if |after| == |before| {
      assert after == before;
    } else {
      assert after[..|after| - 1] == before;
    }
  }

  lemma ExecuteSendsOne(t: Turn, now: int, call: Call)
    ensures
      var sent := ChangesSent(Execute(t, now, call).issues);
      if call.ConfirmCancel? || call.ConfirmMove? then sent <= ChangesSent(t.issues) + 1
      else sent == ChangesSent(t.issues)
  {
    SentAppend(t.issues, Execute(t, now, call).issues);
  }

  lemma {:induction false} AttemptedStaysAway(t: Turn, calls: seq<(int, Call)>)
    requires t.attempted
    ensures ChangesSent(Execution(t, calls).issues) == ChangesSent(t.issues)
    decreases |calls|
  {
    if !t.answered && calls != [] {
      ExecuteSendsOne(t, calls[0].0, calls[0].1);
      AttemptedStaysAway(Step(t, calls[0].0, calls[0].1), calls[1..]);
    }
  }

  /** An exact yes to a pending change sends at most one change, whatever the model asks for afterwards. */
  lemma YesChangesAtMostOnce(t: Turn, m: Reading, modelled: bool, responses: seq<Response>)
    requires !t.answered && t.issues == [] && t.conv.change.Some? && m.verdict == Yes
    ensures ChangesSent(Reply(t, m, modelled, responses).issues) <= 1
  {
    ExecuteSendsOne(t, m.now, ConfirmCall(t.conv.change.value.kind, m));
    var read := AnswerChange(t, m);
    ExecuteSendsOne(read, m.now, ConfirmBooking(m.extraTime, m.outcome));
    if !AnswerBooking(read, m).answered {
      AttemptedStaysAway(AnswerBooking(read, m), Admitted(responses, MAX_ROUNDS, OUTPUT_BUDGET));
    }
  }

  // ---------------------------------------------------------------- whole runs

  ghost predicate LiveOk(w: World, l: Live) {
    && TurnOk(l.turn, l.start) && l.turn.identity == w.identity && ForProfile(l.turn, l.profile)
    && KeyOk(w.keys, l.turn.conv) && KeyOk(w.keys, l.start)
    && ReadOk(w.keys, l.turn.conv) && ReadOk(w.keys, l.start)
  }

  ghost predicate Inv(w: World) {
    && ConvOk(w.store) && KeyOk(w.keys, w.store) && ReadOk(w.keys, w.store)
    && forall n :: n in w.live ==> LiveOk(w, w.live[n])
  }

  lemma ExecuteKeepsProfile(t: Turn, now: int, call: Call, profile: string)
    requires ForProfile(t, profile) && !t.answered
    ensures ForProfile(Execute(t, now, call), profile)
  {
  }

  lemma ActKeepsProfile(t: Turn, move: Move, profile: string)
    requires ForProfile(t, profile) && !t.answered
    ensures ForProfile(Act(t, move), profile)
  {
    if move.Tool? {
      ExecuteKeepsProfile(t, move.now, move.call, profile);
    }
  }

  lemma ActKeepsKey(t: Turn, move: Move, keys: map<string, Origin>)
    requires KeyOk(keys, t.conv) && FreshKey(keys, move)
    ensures KeyOk(Drawn(keys, move), Act(t, move).conv)
  {
  }

  /** Answering about a draft leaves the record right when the flag says what the trail holds. */
  lemma OfferKeepsRead(t: Turn, d: Draft, unread: bool, keys: map<string, Origin>)
    requires ReadOk(keys, t.conv) && d.proposal.key in keys
    requires
      if unread then d.awaiting && forall e :: e in t.conv.trail && e.Summary? ==> e.proposal.key != d.proposal.key
      else !d.awaiting || Summary(d.from, d.proposal, d.preparedAt) in t.conv.trail
    ensures ReadOk(keys, Offer(t, d, unread).conv)
  {
    var trail := t.conv.trail + [Said(d)];
    assert trail[|t.conv.trail|] == Said(d);
    assert forall e :: e in trail ==> e in t.conv.trail || e == Said(d);
    assert forall e :: e in t.conv.trail ==> e in trail;
  }

  lemma PrepareKeepsRead(t: Turn, now: int, call: Call, keys: map<string, Origin>)
    requires ReadOk(keys, t.conv) && call.PrepareBooking?
    requires call.proposal.Some? ==> call.proposal.value.key !in keys
    ensures
      var drawn :=
        if call.proposal.Some? then keys[call.proposal.value.key := Origin(call.proposal.value, now)] else keys;
      ReadOk(drawn, RunPrepareBooking(t, now, call.parsed, call.proposal, call.free).conv)
  {
    if call.parsed && call.proposal.Some? {
      var p := call.proposal.value;
      var drawn := keys[p.key := Origin(p, now)];
      var cleared := WithChange(WithDraft(t, None), None);
      var d := Draft(p, false, now, t.message);
      OfferKeepsRead(cleared, d, false, drawn);
      OfferKeepsRead(cleared, d.(awaiting := true), true, drawn);
    }
  }

  lemma BookKeepsRead(t: Turn, now: int, p: Proposal, extraTime: map<string, bool>, outcome: Outcome,
                      keys: map<string, Origin>)
    requires ReadOk(keys, t.conv)
    ensures ReadOk(keys, Book(t, now, p, extraTime, outcome).conv)
  {
  }

  lemma ConfirmKeepsRead(t: Turn, now: int, extraTime: map<string, bool>, outcome: Outcome, keys: map<string, Origin>)
    requires ReadOk(keys, t.conv)
    ensures ReadOk(keys, RunConfirmBooking(t, now, extraTime, outcome).conv)
  {
    if t.conv.draft.Some? {
      OfferKeepsRead(t, t.conv.draft.value.(awaiting := true), t.conv.unread, keys);
      BookKeepsRead(t, now, t.conv.draft.value.proposal, extraTime, outcome, keys);
    }
  }

  lemma ProposeKeepsRead(t: Turn, c: Change, keys: map<string, Origin>)
    requires ReadOk(keys, t.conv)
    ensures ReadOk(keys, Propose(WithDraft(t, None), c).conv)
  {
  }

  lemma PrepareChangeKeepsRead(t: Turn, now: int, call: Call, keys: map<string, Origin>)
    requires ReadOk(keys, t.conv) && (call.PrepareCancel? || call.PrepareMove?)
    ensures ReadOk(keys, Execute(t, now, call).conv)
  {
    var b := Owned(call.bookings, call.reference);
    if b.Some? {
      ProposeKeepsRead(t, Change(CancelKind, b.value.reference, 0, now, t.message), keys);
      if call.PrepareMove? && call.newStart.Some? {
        ProposeKeepsRead(t, Change(MoveKind, b.value.reference, call.newStart.value, now, t.message), keys);
      }
    }
  }

  lemma ConfirmCancelKeepsRead(t: Turn, now: int, call: Call, keys: map<string, Origin>)
    requires ReadOk(keys, t.conv) && call.ConfirmCancel?
    ensures ReadOk(keys, Execute(t, now, call).conv)
  {
  }

  lemma ConfirmMoveKeepsRead(t: Turn, now: int, call: Call, keys: map<string, Origin>)
    requires ReadOk(keys, t.conv) && call.ConfirmMove?
    ensures ReadOk(keys, Execute(t, now, call).conv)
  {
  }

  lemma StepKeepsRead(t: Turn, move: Move, keys: map<string, Origin>)
    requires ReadOk(keys, t.conv) && FreshKey(keys, move) && move.Tool?
    ensures ReadOk(Drawn(keys, move), Step(t, move.now, move.call).conv)
  {
    match move.call
    case PrepareBooking(_, _, _) => PrepareKeepsRead(t, move.now, move.call, keys);
    case ConfirmBooking(extraTime, outcome) => ConfirmKeepsRead(t, move.now, extraTime, outcome, keys);
    case PrepareCancel(_, _) => PrepareChangeKeepsRead(t, move.now, move.call, keys);
    case PrepareMove(_, _, _, _) => PrepareChangeKeepsRead(t, move.now, move.call, keys);
    case ConfirmCancel(_, _) => ConfirmCancelKeepsRead(t, move.now, move.call, keys);
    case ConfirmMove(_, _) => ConfirmMoveKeepsRead(t, move.now, move.call, keys);
    case Lookup(_) =>
  }

  lemma ResumedKeepsRead(t: Turn, now: int, keys: map<string, Origin>)
    requires ReadOk(keys, t.conv)
    ensures ReadOk(keys, Resumed(t, now).conv)
  {
    if t.conv.draft.Some? {
      OfferKeepsRead(t, t.conv.draft.value.(awaiting := false, from := t.message), false, keys);
    }
  }

  lemma VerifiedKeepsRead(t: Turn, now: int, customer: string, phone: string, keys: map<string, Origin>)
    requires ReadOk(keys, t.conv)
    ensures ReadOk(keys, Verified(t, now, customer, phone).conv)
  {
    var u := t.(customer := customer, verified := phone, conv := t.conv.(customer := customer));
    ResumedKeepsRead(WithChange(u, None), now, keys);
  }

  lemma OtherKeepsRead(t: Turn, move: Move, keys: map<string, Origin>)
    requires ReadOk(keys, t.conv) && !move.Tool? && !move.Resume? && !move.Verify?
    ensures ReadOk(keys, Act(t, move).conv)
  {
  }

  lemma ActKeepsRead(t: Turn, move: Move, keys: map<string, Origin>)
    requires ReadOk(keys, t.conv) && FreshKey(keys, move)
    ensures ReadOk(Drawn(keys, move), Act(t, move).conv)
  {
    if move.Tool? {
      StepKeepsRead(t, move, keys);
    } else if move.Resume? {
      ResumedKeepsRead(t, move.now, keys);
    } else if move.Verify? {
      VerifiedKeepsRead(t, move.now, move.customer, move.phone, keys);
    } else {
      OtherKeepsRead(t, move, keys);
    }
  }

  lemma ActKeepsIdentity(t: Turn, move: Move)
    ensures Act(t, move).identity == t.identity
  {
  }

  lemma ActedKeeps(w: World, move: Move, l: Live)
    requires Inv(w) && !move.Open? && !move.Save? && !move.StaffReply?
    requires LiveOk(w, l) && !l.turn.answered && FreshKey(w.keys, move)
    ensures LiveOk(w.(keys := Drawn(w.keys, move)), l.(turn := Act(l.turn, move)))
  {
    ActKeeps(l.turn, l.start, move);
    ActKeepsKey(l.turn, move, w.keys);
    ActKeepsRead(l.turn, move, w.keys);
    ActKeepsIdentity(l.turn, move);
    ActKeepsProfile(l.turn, move, l.profile);
  }

  lemma Bystander(w: World, move: Move, l: Live)
    requires LiveOk(w, l) && FreshKey(w.keys, move)
    ensures LiveOk(w.(keys := Drawn(w.keys, move)), l)
  {
  }

  lemma OpenKeeps(w: World, n: nat, message: string, customer: string, verified: string)
    requires Inv(w)
    ensures Inv(Do(w, Open(n, message, customer, verified)))
  {
    var c := Opened(w.store, w.identity, customer, verified);
    assert TurnOk(Turn(c, message, customer, verified, w.identity, false, false, []), c);
  }

  lemma ActedInvKeeps(w: World, move: Move)
    requires Inv(w) && !move.Open? && !move.Save? && !move.StaffReply?
    requires move.n in w.live && !w.live[move.n].turn.answered && FreshKey(w.keys, move)
    ensures Inv(Do(w, move))
  {
    ActedKeeps(w, move, w.live[move.n]);
    forall n | n in w.live ensures LiveOk(w.(keys := Drawn(w.keys, move)), w.live[n]) {
      Bystander(w, move, w.live[n]);
    }
  }

  lemma DoKeeps(w: World, move: Move)
    requires Inv(w)
    ensures Inv(Do(w, move))
  {
    if move.Open? {
      OpenKeeps(w, move.n, move.message, move.customer, move.verified);
    } else if !move.Save? && !move.StaffReply? {
      if move.n in w.live && !w.live[move.n].turn.answered && FreshKey(w.keys, move) {
        ActedInvKeeps(w, move);
      }
    }
  }

  lemma {:induction false} RunKeeps(identity: bool, customer: string, moves: seq<Move>)
    ensures Inv(Run(Start(identity, customer), moves)) && Run(Start(identity, customer), moves).identity == identity
  {
    if moves != [] {
      RunKeeps(identity, customer, moves[..|moves| - 1]);
      DoKeeps(Run(Start(identity, customer), moves[..|moves| - 1]), moves[|moves| - 1]);
    }
  }

  /** The live message `n` of a run. */
  ghost predicate Handled(identity: bool, customer: string, moves: seq<Move>, n: nat, l: Live) {
    n in Run(Start(identity, customer), moves).live && Run(Start(identity, customer), moves).live[n] == l
  }

  /**
   What is booked, cancelled or moved is exactly what the opened conversation was asking about, under
   another message, within an hour, for the profile of the message and with the phone proved.
   */
  lemma EveryRequestWasAgreed(identity: bool, customer: string, moves: seq<Move>, n: nat, l: Live, k: nat)
    requires Handled(identity, customer, moves, n, l) && k < |l.turn.issues|
    ensures Agreed(l.turn.issues[k], l.start, identity)
    ensures l.turn.issues[k].mutation.Create? ==>
      var r := l.turn.issues[k].mutation.request;
      var origins := Run(Start(identity, customer), moves).keys;
      && r.customer == l.profile
      && r.key in origins && Books(r, origins[r.key].proposal) && l.turn.issues[k].at - origins[r.key].at <= 3600
  {
    RunKeeps(identity, customer, moves);
  }

  lemma NeverTwoProposals(identity: bool, customer: string, moves: seq<Move>, n: nat, l: Live)
    requires Handled(identity, customer, moves, n, l)
    ensures
      var store := Run(Start(identity, customer), moves).store;
      forall c :: c in {store, l.start, l.turn.conv} ==> c.draft == None || c.change == None
  {
    RunKeeps(identity, customer, moves);
  }

  lemma OneSuccessPerMessage(identity: bool, customer: string, moves: seq<Move>, n: nat, l: Live, j: nat, k: nat)
    requires Handled(identity, customer, moves, n, l)
    requires j < k < |l.turn.issues|
    ensures l.turn.issues[j].outcome != Done
  {
    RunKeeps(identity, customer, moves);
  }

  /** The details of the proposal were read back while another message was handled. */
  predicate ReadBack(trail: seq<Entry>, p: Proposal, message: string) {
    exists i :: 0 <= i < |trail| && trail[i].Summary? && trail[i].proposal == p && trail[i].from != message
  }

  /**
   A booking is requested after a read-back under another message exactly when its draft was not
   parked when prepared, or was brought back since.  A draft that is not parked now always qualifies.
   For a parked one the history is needed: `NothingStoredDecides`.
   */
  lemma ReadBackUnlessParked(identity: bool, customer: string, moves: seq<Move>, n: nat, l: Live, k: nat)
    requires Handled(identity, customer, moves, n, l)
    requires k < |l.turn.issues| && l.turn.issues[k].mutation.Create?
    ensures l.start.draft.Some?
    ensures
      var d := l.start.draft.value;
      && (ReadBack(l.start.trail, d.proposal, l.turn.message) <==> !l.start.unread)
      && (!d.awaiting ==> ReadBack(l.start.trail, d.proposal, l.turn.message))
  {
    RunKeeps(identity, customer, moves);
    assert Agreed(l.turn.issues[k], l.start, l.turn.identity);
    var d := l.start.draft.value;
    if !l.start.unread {
      var e := Summary(d.from, d.proposal, d.preparedAt);
      var i :| 0 <= i < |l.start.trail| && l.start.trail[i] == e;
      assert ReadBack(l.start.trail, d.proposal, l.turn.message);
    }
  }

  /** Requests that share a key book the same visit, in whatever messages they were sent. */
  lemma SameKeySameVisit(identity: bool, customer: string, moves: seq<Move>, n: nat, l: Live, j: nat,
                         m: nat, r: Live, k: nat)
    requires Handled(identity, customer, moves, n, l) && Handled(identity, customer, moves, m, r)
    requires j < |l.turn.issues| && l.turn.issues[j].mutation.Create?
    requires k < |r.turn.issues| && r.turn.issues[k].mutation.Create?
    ensures
      var a, b := l.turn.issues[j].mutation.request, r.turn.issues[k].mutation.request;
      a.key == b.key ==> a == b.(customer := a.customer)
  {
    RunKeeps(identity, customer, moves);
    assert Agreed(l.turn.issues[j], l.start, l.turn.identity);
    assert Agreed(r.turn.issues[k], r.start, r.turn.identity);
  }

  // ---------------------------------------------------------------- a parked draft, booked unread

  function Visit(): Proposal {
    Proposal("key", ["service"], ["Service"], "", "staff", "Staff", 7200, 1800, "+374", "Name")
  }

  /** Prepared before the phone was proved, confirmed after it was proved elsewhere. */
  function Parked(): seq<Move> {
    [Open(1, "first", "customer", ""), Tool(1, 0, PrepareBooking(true, Some(Visit()), true)), Save(1),
     Open(2, "second", "customer", "+374")]
  }

  lemma RunAppend(w: World, moves: seq<Move>, move: Move)
    ensures Run(w, moves + [move]) == Do(Run(w, moves), move)
  {
    assert (moves + [move])[..|moves|] == moves;
  }

  lemma ParkedIsStored()
    ensures
      var w := Run(Start(true, "customer"), Parked());
      && 2 in w.live && w.live[2].start == w.live[2].turn.conv == w.store
      && w.store == Conv("customer", Some(Draft(Visit(), true, 0, "first")), None, [Prompt("first", Visit(), 0)], true)
      && w.live[2].turn == Turn(w.store, "second", "customer", "+374", true, false, false, [])
  {
    var w := Start(true, "customer");
    var m := Parked();
    assert m == (([] + [m[0]]) + [m[1]] + [m[2]]) + [m[3]];
    RunAppend(w, [], m[0]);
    RunAppend(w, [] + [m[0]], m[1]);
    RunAppend(w, [] + [m[0]] + [m[1]], m[2]);
    RunAppend(w, [] + [m[0]] + [m[1]] + [m[2]], m[3]);
    var w2 := Do(Do(w, m[0]), m[1]);
    assert w2.live[1].turn.conv ==
           Conv("customer", Some(Draft(Visit(), true, 0, "first")), None, [Prompt("first", Visit(), 0)], true);
  }

  /** The read-back can be missing: a draft still parked is booked although its details were never shown. */
  lemma ParkedDraftCanBeBooked()
    ensures exists moves, l: Live ::
      && Handled(true, "customer", moves, 2, l)
      && |l.turn.issues| == 1 && l.turn.issues[0].mutation.Create? && l.turn.issues[0].outcome == Done
      && forall i :: 0 <= i < |l.turn.conv.trail| ==> !l.turn.conv.trail[i].Summary?
  {
    ParkedIsStored();
    var book := Tool(2, 60, ConfirmBooking(map["service" := false], Done));
    RunAppend(Start(true, "customer"), Parked(), book);
    var w := Run(Start(true, "customer"), Parked());
    assert FirstProblem(["service"], map["service" := false]) == NoProblem;
    var l := Do(w, book).live[2];
    assert l.turn.issues == [Issue("second", 60, Create(ToRequest(Visit(), "customer")), Done, "+374", w.store)];
    assert Handled(true, "customer", Parked() + [book], 2, l);
  }

  // ---------------------------------------------------------------- a draft parked again, booked after its read-back

  /** Prepared with a proved phone and read back; the proof lapses for one message and returns. */
  function ParkedAgain(): seq<Move> {
    [Open(1, "first", "customer", "+374"), Tool(1, 0, PrepareBooking(true, Some(Visit()), true)), Save(1),
     Open(2, "second", "customer", ""), Tool(2, 60, ConfirmBooking(map[], Failed)), Save(2),
     Open(3, "third", "customer", "+374")]
  }

  /** What the run has stored by then. */
  function ParkedAgainConv(): Conv {
    Conv("customer", Some(Draft(Visit(), true, 0, "first")), None,
         [Summary("first", Visit(), 0), Prompt("first", Visit(), 0)], false)
  }

  lemma FirstMessageReadsBack()
    ensures
      var w := Run(Start(true, "customer"), ParkedAgain()[..3]);
      && w.identity && w.live.Keys == {1}
      && var read := [Summary("first", Visit(), 0)];
         w.store == Conv("customer", Some(Draft(Visit(), false, 0, "first")), None, read, false)
  {
    var w, m := Start(true, "customer"), ParkedAgain();
    assert m[..3] == [] + [m[0]] + [m[1]] + [m[2]];
    RunAppend(w, [], m[0]);
    RunAppend(w, [] + [m[0]], m[1]);
    RunAppend(w, [] + [m[0]] + [m[1]], m[2]);
    var w2 := Do(Do(w, m[0]), m[1]);
    assert w2.live[1].turn.conv.draft == Some(Draft(Visit(), false, 0, "first"));
  }

  lemma SecondTurnParks(c: Conv)
    requires c == Conv("customer", Some(Draft(Visit(), false, 0, "first")), None, [Summary("first", Visit(), 0)], false)
    ensures
      var t := Turn(c, "second", "customer", "", true, false, false, []);
      Step(t, 60, ConfirmBooking(map[], Failed)).conv == ParkedAgainConv()
  {
  }

  lemma SecondMessageParks()
    ensures
      var w := Run(Start(true, "customer"), ParkedAgain()[..6]);
      w.identity && w.live.Keys == {1, 2} && w.store == ParkedAgainConv()
  {
    FirstMessageReadsBack();
    var w, m := Start(true, "customer"), ParkedAgain();
    var three := m[..3];
    assert m[..6] == three + [m[3]] + [m[4]] + [m[5]];
    RunAppend(w, three, m[3]);
    RunAppend(w, three + [m[3]], m[4]);
    RunAppend(w, three + [m[3]] + [m[4]], m[5]);
    SecondTurnParks(Run(w, three).store);
  }

  lemma ThirdMessageFindsItParked()
    ensures
      var w := Run(Start(true, "customer"), ParkedAgain());
      && w.store == ParkedAgainConv() && 3 in w.live && w.live[3].start == ParkedAgainConv()
      && w.live[3].turn == Turn(ParkedAgainConv(), "third", "customer", "+374", true, false, false, [])
  {
    SecondMessageParks();
    var m := ParkedAgain();
    assert m == m[..6] + [m[6]];
    RunAppend(Start(true, "customer"), m[..6], m[6]);
  }

  /** Being parked does not mean being unread: here the details had been read back before. */
  lemma ParkedAgainIsReadBack()
    ensures exists moves, l: Live ::
      && Handled(true, "customer", moves, 3, l)
      && |l.turn.issues| == 1 && l.turn.issues[0].mutation.Create? && l.turn.issues[0].outcome == Done
      && l.start.draft.Some? && l.start.draft.value.awaiting
      && ReadBack(l.start.trail, l.start.draft.value.proposal, l.turn.message)
  {
    ThirdMessageFindsItParked();
    var book := Tool(3, 120, ConfirmBooking(map["service" := false], Done));
    RunAppend(Start(true, "customer"), ParkedAgain(), book);
    var w := Run(Start(true, "customer"), ParkedAgain());
    assert FirstProblem(["service"], map["service" := false]) == NoProblem;
    var l := Do(w, book).live[3];
    var request := Create(ToRequest(Visit(), "customer"));
    assert l.turn.issues == [Issue("third", 120, request, Done, "+374", ParkedAgainConv())];
    assert l.start.trail[0].Summary?;
    assert Handled(true, "customer", ParkedAgain() + [book], 3, l);
  }

  /** What the tools read of a stored conversation. */
  predicate SameStored(a: Conv, b: Conv) { a.customer == b.customer && a.draft == b.draft && a.change == b.change }

  /**
   Both runs leave the very same draft behind; with one the details were read back, with the other
   never.  So no check on what the tools read could tell them apart.
   */
  lemma NothingStoredDecides()
    ensures
      var a, b := Run(Start(true, "customer"), Parked()).store, Run(Start(true, "customer"), ParkedAgain()).store;
      && SameStored(a, b) && a.unread && !b.unread
      && (forall message :: !ReadBack(a.trail, Visit(), message))
      && (forall message :: message != "first" ==> ReadBack(b.trail, Visit(), message))
  {
    ParkedIsStored();
    ThirdMessageFindsItParked();
    assert ParkedAgainConv().trail[0] == Summary("first", Visit(), 0);
  }
}
