/**
 The reminder job of one web booking: workers take it by compare-and-set, read the calendar,
 and then either send one SMS themselves or hand the reminder to the native outbox.
 */
module WebReminder {
  import opened Options

  const STUCK_AFTER: nat := 300

  datatype JobState = Pending | Checking | Sending | Done | Skipped

  datatype Job = Job(state: JobState, updatedAt: nat)

  /** The job row, the unique SMS row of the draft, and what was sent so far. */
  datatype Shared = Shared(job: Option<Job>, row: bool, posts: nat, handoffs: nat, holder: nat)

  predicate In(s: Shared, from: JobState) { s.job.Some? && s.job.value.state == from }

  function Move(s: Shared, from: JobState, to: JobState, now: nat): Shared {
    if In(s, from) then s.(job := Some(Job(to, now))) else s
  }

  /** Only a handoff, which can be repeated, is taken back from a worker that disappeared. */
  function Recover(s: Shared, handsOff: bool, now: nat): Shared {
    if handsOff && In(s, Checking) && s.job.value.updatedAt + STUCK_AFTER < now
    then s.(job := Some(Job(Pending, now)))
    else s
  }

  /** What the reads before sending came to. */
  datatype Check = Fine | NotWanted | Unreadable

  datatype Pc = AtClaim | AtCheck | AtHandoff | AtReserve | AtIntent | AtPost | AtFinish | Gone

  /** `now` is the instant the scheduled run began. */
  datatype Worker = Worker(pc: Pc, now: nat)

  datatype Action =
    | DoClaim
    | DoCheck(check: Check)
    | DoHandoff(answered: bool)
    | DoReserve(affordable: bool)
    | DoIntent
    | DoPost
    | DoFinish
    | DoCrash

  predicate Enabled(x: Worker, action: Action) {
    match action
    case DoClaim => x.pc == AtClaim
    case DoCheck(_) => x.pc == AtCheck
    case DoHandoff(_) => x.pc == AtHandoff
    case DoReserve(_) => x.pc == AtReserve
    case DoIntent => x.pc == AtIntent
    case DoPost => x.pc == AtPost
    case DoFinish => x.pc == AtFinish
    case DoCrash => true
  }

  /** `handsOff` is the fixed configuration of this draft. */
  function Act(s: Shared, handsOff: bool, w: nat, x: Worker, action: Action): (Shared, Worker)
    requires Enabled(x, action)
  {
    match action
    case DoClaim =>
      if In(s, Pending) then (Move(s, Pending, Checking, x.now).(holder := w), x.(pc := AtCheck))
      else (s, x.(pc := Gone))
    case DoCheck(check) =>
      (match check
       case Fine => (s, x.(pc := if handsOff then AtHandoff else AtReserve))
       case NotWanted => (Move(s, Checking, Skipped, x.now), x.(pc := Gone))
       case Unreadable => (Move(s, Checking, Pending, x.now), x.(pc := Gone)))
    case DoHandoff(answered) =>
      (Move(s, Checking, if answered then Done else Pending, x.now).(handoffs := s.handoffs + 1), x.(pc := Gone))
    case DoReserve(affordable) =>
      if affordable && !s.row then (s.(row := true), x.(pc := AtIntent))
      else (Move(s, Checking, Skipped, x.now), x.(pc := Gone))
    case DoIntent => (Move(s, Checking, Sending, x.now), x.(pc := AtPost))
    case DoPost => (s.(posts := s.posts + 1), x.(pc := AtFinish))
    case DoFinish => (Move(s, Sending, Done, x.now), x.(pc := Gone))
    case DoCrash => (s, x.(pc := Gone))
  }

  datatype Step =
    | Start(w: nat, now: nat)
    | Work(w: nat, action: Action)
    | RecoverStep(now: nat)
    | ForgetRow
    | ForgetJob

  datatype System = System(shared: Shared, workers: map<nat, Worker>)

  function Do(y: System, handsOff: bool, step: Step): System {
    match step
    case Start(w, now) => if w in y.workers then y else y.(workers := y.workers[w := Worker(AtClaim, now)])
    case Work(w, action) =>
      if w !in y.workers || !Enabled(y.workers[w], action) then y
      else
        var (s, x) := Act(y.shared, handsOff, w, y.workers[w], action);
        System(s, y.workers[w := x])
    case RecoverStep(now) => y.(shared := Recover(y.shared, handsOff, now))
    case ForgetRow => y.(shared := y.shared.(row := false))
    case ForgetJob => y.(shared := y.shared.(job := None))
  }

  /** The job is inserted once, with the confirmation of its draft. */
  function Run(handsOff: bool, inserted: nat, steps: seq<Step>): System
    decreases |steps|
  {
    if steps == [] then System(Shared(Some(Job(Pending, inserted)), false, 0, 0, 0), map[])
    else Do(Run(handsOff, inserted, steps[..|steps| - 1]), handsOff, steps[|steps| - 1])
  }

  // ---------------------------------------------------------------- single steps

  /** Which compare-and-set, reservation or call each step is; only the holder of a pending job gets past its claim. */
  lemma StepsExactly(s: Shared, handsOff: bool, w: nat, x: Worker, action: Action)
    requires Enabled(x, action)
    ensures
      var (t, z) := Act(s, handsOff, w, x, action);
      var taken := action.DoReserve? && action.affordable && !s.row;
      && z.now == x.now
      && t.job == (match action
                   case DoClaim => Move(s, Pending, Checking, x.now).job
                   case DoCheck(check) =>
                     if check == NotWanted then Move(s, Checking, Skipped, x.now).job
                     else if check == Unreadable then Move(s, Checking, Pending, x.now).job
                     else s.job
                   case DoHandoff(answered) => Move(s, Checking, if answered then Done else Pending, x.now).job
                   case DoReserve(_) => if taken then s.job else Move(s, Checking, Skipped, x.now).job
                   case DoIntent => Move(s, Checking, Sending, x.now).job
                   case DoFinish => Move(s, Sending, Done, x.now).job
                   case _ => s.job)
      && t.row == (s.row || taken)
      && t.posts == s.posts + (if action.DoPost? then 1 else 0)
      && t.handoffs == s.handoffs + (if action.DoHandoff? then 1 else 0)
      && z.pc == (match action
                  case DoClaim => if In(s, Pending) then AtCheck else Gone
                  case DoCheck(check) => if check != Fine then Gone else if handsOff then AtHandoff else AtReserve
                  case DoReserve(_) => if taken then AtIntent else Gone
                  case DoIntent => AtPost
                  case DoPost => AtFinish
                  case _ => Gone)
  {
  }

  lemma MovedExactly(s: Shared, from: JobState, to: JobState, now: nat)
    ensures
      var t := Move(s, from, to, now);
      && t == s.(job := t.job)
      && t.job == if s.job.Some? && s.job.value.state == from then Some(Job(to, now)) else s.job
  {
  }

  /** The job is inserted pending; runs start once, may vanish at any time, and cleanup forgets rows and jobs. */
  lemma SurroundingsExactly(y: System, handsOff: bool, w: nat, now: nat)
    ensures Run(handsOff, now, []) == System(Shared(Some(Job(Pending, now)), false, 0, 0, 0), map[])
    ensures
      var z := Do(y, handsOff, Start(w, now));
      if w in y.workers then z == y
      else z.shared == y.shared && z.workers == y.workers[w := Worker(AtClaim, now)]
    ensures w in y.workers ==>
      var z := Do(y, handsOff, Work(w, DoCrash));
      z.shared == y.shared && z.workers == y.workers[w := y.workers[w].(pc := Gone)]
    ensures Do(y, handsOff, RecoverStep(now)) == System(Recover(y.shared, handsOff, now), y.workers)
    ensures Do(y, handsOff, ForgetRow) == System(y.shared.(row := false), y.workers)
    ensures Do(y, handsOff, ForgetJob) == System(y.shared.(job := None), y.workers)
  {
  }

  // ---------------------------------------------------------------- one worker, alone

  /** The only step a worker can take besides crashing, given what its reads and calls come to. */
  function NextAction(pc: Pc, check: Check, affordable: bool, answered: bool): Action {
    match pc
    case AtClaim => DoClaim
    case AtCheck => DoCheck(check)
    case AtHandoff => DoHandoff(answered)
    case AtReserve => DoReserve(affordable)
    case AtIntent => DoIntent
    case AtPost => DoPost
    case AtFinish => DoFinish
    case Gone => DoCrash
  }

  function StepsLeft(pc: Pc): nat {
    match pc
    case AtClaim => 6
    case AtCheck => 5
    case AtHandoff => 1
    case AtReserve => 4
    case AtIntent => 3
    case AtPost => 2
    case AtFinish => 1
    case Gone => 0
  }

  /** What an undisturbed worker leaves behind. */
  function Alone(s: Shared, handsOff: bool, w: nat, x: Worker, check: Check, affordable: bool, answered: bool): Shared
    decreases StepsLeft(x.pc)
  {
    if x.pc == Gone then s
    else
      var (t, z) := Act(s, handsOff, w, x, NextAction(x.pc, check, affordable, answered));
      Alone(t, handsOff, w, z, check, affordable, answered)
  }

  lemma AlonePosts(s: Shared, handsOff: bool, w: nat, x: Worker, check: Check, affordable: bool, answered: bool)
    requires x.pc == AtPost && In(s, Sending)
    ensures Alone(s, handsOff, w, x, check, affordable, answered) ==
            s.(posts := s.posts + 1, job := Some(Job(Done, x.now)))
  {
    var t, z := s.(posts := s.posts + 1), x.(pc := AtFinish);
    assert Alone(t, handsOff, w, z, check, affordable, answered) == t.(job := Some(Job(Done, x.now)));
  }

  lemma AloneReserves(s: Shared, handsOff: bool, w: nat, x: Worker, check: Check, affordable: bool, answered: bool)
    requires x.pc == AtReserve && In(s, Checking)
    ensures Alone(s, handsOff, w, x, check, affordable, answered) ==
            if affordable && !s.row then s.(row := true, posts := s.posts + 1, job := Some(Job(Done, x.now)))
            else s.(job := Some(Job(Skipped, x.now)))
  {
    if affordable && !s.row {
      var t, z := s.(row := true), x.(pc := AtIntent);
      var u := Move(t, Checking, Sending, x.now);
      AlonePosts(u, handsOff, w, x.(pc := AtPost), check, affordable, answered);
      assert Alone(t, handsOff, w, z, check, affordable, answered) ==
             Alone(u, handsOff, w, x.(pc := AtPost), check, affordable, answered);
    }
  }

  lemma AloneChecks(s: Shared, handsOff: bool, w: nat, x: Worker, check: Check, affordable: bool, answered: bool)
    requires x.pc == AtCheck && In(s, Checking)
    ensures
      Alone(s, handsOff, w, x, check, affordable, answered) ==
        match check
        case NotWanted => s.(job := Some(Job(Skipped, x.now)))
        case Unreadable => s.(job := Some(Job(Pending, x.now)))
        case Fine =>
          if handsOff then s.(job := Some(Job(if answered then Done else Pending, x.now)), handoffs := s.handoffs + 1)
          else if affordable && !s.row
          then s.(row := true, posts := s.posts + 1, job := Some(Job(Done, x.now)))
          else s.(job := Some(Job(Skipped, x.now)))
  {
    if check == Fine && !handsOff {
      AloneReserves(s, handsOff, w, x.(pc := AtReserve), check, affordable, answered);
    } else if check == Fine {
      var t, z := s, x.(pc := AtHandoff);
      assert Alone(t, handsOff, w, z, check, affordable, answered) ==
             s.(job := Some(Job(if answered then Done else Pending, x.now)), handoffs := s.handoffs + 1);
    }
  }

  /** A handoff that was taken and then abandoned is open again five minutes later; an SMS job never is. */
  lemma RecoveredExactly(s: Shared, handsOff: bool, now: nat)
    ensures
      var u := Recover(s, handsOff, now);
      && u == s.(job := u.job)
      && u.job == if handsOff && s.job.Some? && s.job.value.state == Checking && s.job.value.updatedAt + 300 < now
                  then Some(Job(Pending, now)) else s.job
  {
  }

  // ---------------------------------------------------------------- the invariant

  predicate Active(pc: Pc) { pc != AtClaim && pc != Gone && pc != AtFinish }

  ghost predicate SharedOk(s: Shared, handsOff: bool) {
    && s.posts <= 1
    && (In(s, Pending) && !handsOff ==> s.posts == 0)
    && (if handsOff then s.posts == 0 else s.handoffs == 0)
  }

  ghost predicate WorkerOk(s: Shared, handsOff: bool, w: nat, x: Worker) {
    && (handsOff ==> x.pc !in {AtReserve, AtIntent, AtPost})
    && (!handsOff ==> x.pc != AtHandoff)
    && (!handsOff && Active(x.pc) ==> s.holder == w && s.posts == 0 && !In(s, Pending))
  }

  ghost predicate Inv(y: System, handsOff: bool) {
    SharedOk(y.shared, handsOff) && forall w :: w in y.workers ==> WorkerOk(y.shared, handsOff, w, y.workers[w])
  }

  lemma ActKeeps(s: Shared, handsOff: bool, w: nat, x: Worker, action: Action)
    requires SharedOk(s, handsOff) && WorkerOk(s, handsOff, w, x) && Enabled(x, action)
    ensures
      var (t, z) := Act(s, handsOff, w, x, action);
      SharedOk(t, handsOff) && WorkerOk(t, handsOff, w, z)
  {
  }

  lemma ActKeepsBystander(s: Shared, handsOff: bool, w: nat, x: Worker, action: Action, v: nat, z: Worker)
    requires SharedOk(s, handsOff) && WorkerOk(s, handsOff, w, x) && Enabled(x, action)
    requires v != w && WorkerOk(s, handsOff, v, z)
    ensures WorkerOk(Act(s, handsOff, w, x, action).0, handsOff, v, z)
  {
  }

  lemma DoKeeps(y: System, handsOff: bool, step: Step)
    requires Inv(y, handsOff)
    ensures Inv(Do(y, handsOff, step), handsOff)
  {
    if step.Work? && step.w in y.workers && Enabled(y.workers[step.w], step.action) {
      var x := y.workers[step.w];
      ActKeeps(y.shared, handsOff, step.w, x, step.action);
      forall v | v in y.workers && v != step.w
        ensures WorkerOk(Act(y.shared, handsOff, step.w, x, step.action).0, handsOff, v, y.workers[v])
      {
        ActKeepsBystander(y.shared, handsOff, step.w, x, step.action, v, y.workers[v]);
      }
    }
  }

  lemma {:induction false} RunKeeps(handsOff: bool, inserted: nat, steps: seq<Step>)
    ensures Inv(Run(handsOff, inserted, steps), handsOff)
  {
    if steps != [] {
      RunKeeps(handsOff, inserted, steps[..|steps| - 1]);
      DoKeeps(Run(handsOff, inserted, steps[..|steps| - 1]), handsOff, steps[|steps| - 1]);
    }
  }

  /** Crashes, reruns, recoveries and cleanup included: at most one SMS, and none when the reminder is handed off. */
  lemma AtMostOneSms(handsOff: bool, inserted: nat, steps: seq<Step>)
    ensures
      var s := Run(handsOff, inserted, steps).shared;
      s.posts <= (if handsOff then 0 else 1) && (!handsOff ==> s.handoffs == 0)
  {
    RunKeeps(handsOff, inserted, steps);
  }

  // ---------------------------------------------------------------- in place

  class ReminderJobs {
    var state: Shared

    constructor (inserted: nat)
      ensures state == Shared(Some(Job(Pending, inserted)), false, 0, 0, 0)
    {
      state := Shared(Some(Job(Pending, inserted)), false, 0, 0, 0);
    }

    method ReminderState(from: JobState, to: JobState, now: nat) returns (changed: bool)
      modifies this
      ensures state == Move(old(state), from, to, now) && changed == In(old(state), from)
    {
      changed := state.job.Some? && state.job.value.state == from;
      if changed {
        state := state.(job := Some(Job(to, now)));
      }
    }

    method RecoverReminderHandoffs(handsOff: bool, now: nat)
      modifies this
      ensures state == Recover(old(state), handsOff, now)
    {
      if handsOff && state.job.Some? && state.job.value.state == Checking
         && state.job.value.updatedAt + STUCK_AFTER < now {
        state := state.(job := Some(Job(Pending, now)));
      }
    }

    /**
     One worker from claim to end with nobody in between: it acts only on a pending job, leaves
     it pending only after a read or a handoff that can be repeated, and sends at most once.
     */
    method Remind(handsOff: bool, w: nat, check: Check, affordable: bool, answered: bool, now: nat)
      modifies this
      ensures state == Alone(old(state), handsOff, w, Worker(AtClaim, now), check, affordable, answered)
      ensures In(old(state), Pending) ==>
        && state.job.Some? && state.job.value.updatedAt == now
        && (In(state, Done) <==> check == Fine && (if handsOff then answered else affordable && !old(state).row))
        && (In(state, Skipped) <==>
              check == NotWanted || (check == Fine && !handsOff && (!affordable || old(state).row)))
      ensures state.row == (old(state).row || state.posts > old(state).posts)
      ensures !In(old(state), Pending) ==> state == old(state)
      ensures state.posts == old(state).posts +
        if In(old(state), Pending) && check == Fine && !handsOff && affordable && !old(state).row then 1 else 0
      ensures state.handoffs == old(state).handoffs +
        if In(old(state), Pending) && check == Fine && handsOff then 1 else 0
      ensures In(old(state), Pending) ==>
        (In(state, Pending) <==> check == Unreadable || (check == Fine && handsOff && !answered))
      ensures state.posts > old(state).posts ==> In(state, Done) && state.row
    {
      var claimed := ReminderState(Pending, Checking, now);
      if !claimed {
        return;
      }
      state := state.(holder := w);
      AloneChecks(state, handsOff, w, Worker(AtCheck, now), check, affordable, answered);
      var moved;
      match check {
        case NotWanted => moved := ReminderState(Checking, Skipped, now);
        case Unreadable => moved := ReminderState(Checking, Pending, now);
        case Fine =>
          if handsOff {
            state := state.(handoffs := state.handoffs + 1);
            moved := ReminderState(Checking, if answered then Done else Pending, now);
            return;
          }
          if !affordable || state.row {
            moved := ReminderState(Checking, Skipped, now);
            return;
          }
          state := state.(row := true);
          moved := ReminderState(Checking, Sending, now);
          state := state.(posts := state.posts + 1);
          moved := ReminderState(Sending, Done, now);
      }
    }
  }
}
