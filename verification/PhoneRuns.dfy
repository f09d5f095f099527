/**
 Whole runs of the phone challenge: what proves a phone, how often a code can be tried, and how
 many codes an account or a phone can be sent.  Every move carries the instant it read, and
 nothing is assumed about the order of those instants.
 */
module PhoneRuns {
  import opened Options
  import opened PhoneChallenge

  /** Who pays for a code: the chat account that asked and the phone that is texted. */
  datatype Payer = Account(user: string) | Number(phone: string)

  /** When a payer's codes were sent, and which of them opened a counting window. */
  datatype Meter = Meter(times: seq<int>, starts: seq<nat>)

  /** What was typed for a code, and when. */
  datatype Try = Try(typed: string, at: int)

  /** A code that was sent and the tries that were counted against it. */
  datatype Issued = Issued(user: string, phone: string, code: string, at: int, tries: seq<Try>)

  /** A contact that was accepted. */
  datatype Share = Share(user: string, phone: string, at: int)

  /** The stored entries; the other parts record what happened. */
  datatype System = System(
    challenges: map<string, Challenge>, budgets: map<string, Challenge>, proofs: map<string, Proof>,
    meters: map<Payer, Meter>, issued: seq<Issued>, current: map<string, nat>, shares: seq<Share>)

  const EMPTY: System := System(map[], map[], map[], map[], [], map[], [])

  datatype Step =
    | BeginStep(user: string, now: nat)
    | CancelStep(user: string)
    | SendStep(user: string, phone: string, code: string, now: nat)
    | ConfirmStep(user: string, code: string, now: nat)
    | ContactStep(user: string, phone: string, message: string, now: nat)

  function Own(y: System, user: string): Challenge { if user in y.challenges then y.challenges[user] else BLANK }

  function Budget(y: System, phone: string): Challenge { if phone in y.budgets then y.budgets[phone] else BLANK }

  function ProofOf(y: System, user: string): Option<Proof> {
    if user in y.proofs then Some(y.proofs[user]) else None
  }

  function MeterOf(y: System, p: Payer): Meter { if p in y.meters then y.meters[p] else Meter([], []) }

  /** The code's own entry decides whether a window opens. */
  function Metered(m: Meter, before: Challenge, now: int): Meter {
    Meter(m.times + [now], if now - before.windowStarted >= HOUR then m.starts + [|m.times|] else m.starts)
  }

  /** The last code sent to the account. */
  function LastCode(y: System, user: string): Option<Issued> {
    if user in y.current && y.current[user] < |y.issued| then Some(y.issued[y.current[user]]) else None
  }

  /** A try that the stored counter counts is recorded with the account's last code. */
  function Noted(y: System, user: string, typed: string, counted: bool, now: int): seq<Issued> {
    match LastCode(y, user)
    case None => y.issued
    case Some(c) =>
      if counted then y.issued[y.current[user] := c.(tries := c.tries + [Try(typed, now)])] else y.issued
  }

  function Do(y: System, step: Step): System {
    match step
    case BeginStep(user, now) => y.(challenges := y.challenges[user := Begin(Own(y, user), now)])
    case CancelStep(user) => y.(challenges := y.challenges[user := Cancel(Own(y, user))])
    case SendStep(user, phone, code, now) =>
      if |code| != 6 then y
      else (match Send(Own(y, user), Budget(y, phone), user, phone, code, now)
       case Sent(own, budget) =>
         y.(challenges := y.challenges[user := own], budgets := y.budgets[phone := budget],
            meters := y.meters[Account(user) := Metered(MeterOf(y, Account(user)), Own(y, user), now)]
                              [Number(phone) := Metered(MeterOf(y, Number(phone)), Budget(y, phone), now)],
            issued := y.issued + [Issued(user, phone, code, now, [])], current := y.current[user := |y.issued|])
       case _ => y)
    case ConfirmStep(user, code, now) =>
      var r := Confirm(Own(y, user), user, code, now);
      var counted := r.own.attempts != Own(y, user).attempts;
      y.(challenges := y.challenges[user := r.own], issued := Noted(y, user, code, counted, now),
         proofs := if r.answer.Proves? then y.proofs[user := r.answer.proof] else y.proofs)
    case ContactStep(user, phone, message, now) =>
      (match Contact(Own(y, user), ProofOf(y, user), phone, message, now)
       case ContactAccepted(own, proof) =>
         y.(challenges := y.challenges[user := own], proofs := y.proofs[user := proof],
            shares := y.shares + [Share(user, phone, now)])
       case _ => y)
  }

  function Run(steps: seq<Step>): System
    decreases |steps|
  {
    if steps == [] then EMPTY else Do(Run(steps[..|steps| - 1]), steps[|steps| - 1])
  }

  /** Each step is its one transaction on the stored entries. */
  lemma StepsAreTransactions(y: System, step: Step)
    ensures
      var z := Do(y, step);
      match step
      case BeginStep(u, now) => z.challenges == y.challenges[u := Begin(Own(y, u), now)] && z.budgets == y.budgets
      case CancelStep(u) => z.challenges == y.challenges[u := Cancel(Own(y, u))] && z.budgets == y.budgets
      case SendStep(u, phone, code, now) =>
        var r := Send(Own(y, u), Budget(y, phone), u, phone, code, now);
        if |code| == 6 && r.Sent?
        then z.challenges == y.challenges[u := r.own] && z.budgets == y.budgets[phone := r.budget]
        else z == y
      case ConfirmStep(u, typed, now) =>
        z.challenges == y.challenges[u := Confirm(Own(y, u), u, typed, now).own] && z.budgets == y.budgets
      case ContactStep(u, phone, message, now) =>
        var r := Contact(Own(y, u), ProofOf(y, u), phone, message, now);
        if r.ContactAccepted?
        then z.challenges == y.challenges[u := r.own] && z.budgets == y.budgets
        else z == y
  {
  }

  // ---------------------------------------------------------------- the invariant

  ghost predicate MinutesApart(times: seq<int>) {
    forall i :: 0 < i < |times| ==> times[i - 1] + MINUTE <= times[i]
  }

  /** Window `j` opens with a code, holds at most five, and opens an hour after the one before. */
  ghost predicate WindowOk(m: Meter, j: nat)
    requires j < |m.starts|
  {
    && m.starts[j] < |m.times|
    && (if j == 0 then m.starts[j] == 0
        else
          && m.starts[j - 1] < m.starts[j] <= m.starts[j - 1] + MAX_SENDS
          && m.times[m.starts[j - 1]] + HOUR <= m.times[m.starts[j]])
  }

  ghost predicate Steady(m: Meter) {
    && MinutesApart(m.times)
    && (m.times == [] <==> m.starts == [])
    && (forall j :: 0 <= j < |m.starts| ==> WindowOk(m, j))
    && (m.starts != [] ==> |m.times| <= m.starts[|m.starts| - 1] + MAX_SENDS)
  }

  ghost predicate MeterOk(v: Challenge, m: Meter) {
    && Steady(m)
    && (if m.times == [] then v.windowStarted == ZERO && v.nextSendAt == ZERO && v.sends == 0
        else
          var last := m.starts[|m.starts| - 1];
          && last < |m.times| && v.windowStarted == m.times[last]
          && v.sends == |m.times| - last
          && v.nextSendAt == m.times[|m.times| - 1] + MINUTE)
  }

  ghost predicate CodeOk(y: System, user: string) {
    var v := Own(y, user);
    && (user in y.current ==> y.current[user] < |y.issued| && y.issued[y.current[user]].user == user)
    && (v.phase == Code ==>
          && user in y.current
          && var c := y.issued[y.current[user]];
             && |c.code| == 6 && v.attempts == |c.tries| < 5 && (forall t :: t in c.tries ==> t.typed != c.code)
             && v.phone == c.phone && v.hash == Some(Digest(user, c.phone, c.code)) && v.expiresAt == c.at + 300)
  }

  /** At most five tries within five minutes, and the right one ends them. */
  ghost predicate IssuedOk(c: Issued) {
    && |c.code| == 6 && |c.tries| <= 5 && (forall t :: t in c.tries ==> t.at < c.at + 300)
    && forall i :: 0 <= i < |c.tries| && c.tries[i].typed == c.code ==> i == |c.tries| - 1
  }

  ghost predicate CodesOk(y: System) {
    && (forall u :: CodeOk(y, u))
    && (forall k :: 0 <= k < |y.issued| ==> IssuedOk(y.issued[k]))
  }

  /** Windows that are already open stay as they are. */
  lemma OldWindowsOk(m: Meter, now: int, starts: seq<nat>)
    requires Steady(m) && m.starts <= starts
    ensures forall j :: 0 <= j < |m.starts| ==> WindowOk(Meter(m.times + [now], starts), j)
  {
    forall j | 0 <= j < |m.starts| ensures WindowOk(Meter(m.times + [now], starts), j) {
      assert WindowOk(m, j);
      assert j > 0 ==> WindowOk(m, j - 1);
    }
  }

  lemma SameWindowKeepsMeter(v: Challenge, m: Meter, now: nat)
    requires MeterOk(v, m) && Charge(v, now) != None && now - v.windowStarted < HOUR
    ensures MeterOk(Charge(v, now).value, Metered(m, v, now))
  {
    OldWindowsOk(m, now, m.starts);
    assert WindowOk(m, |m.starts| - 1);
  }

  lemma NewWindowKeepsMeter(v: Challenge, m: Meter, now: nat)
    requires MeterOk(v, m) && Charge(v, now) != None && now - v.windowStarted >= HOUR
    ensures MeterOk(Charge(v, now).value, Metered(m, v, now))
  {
    var m' := Metered(m, v, now);
    OldWindowsOk(m, now, m'.starts);
    if m.starts != [] {
      assert WindowOk(m, |m.starts| - 1);
    }
    assert WindowOk(m', |m.starts|);
  }

  lemma ChargeKeepsMeter(v: Challenge, m: Meter, now: nat)
    requires MeterOk(v, m) && Charge(v, now) != None
    ensures MeterOk(Charge(v, now).value, Metered(m, v, now))
  {
    if now - v.windowStarted < HOUR {
      SameWindowKeepsMeter(v, m, now);
    } else {
      NewWindowKeepsMeter(v, m, now);
    }
  }

  /** The part of an entry its meter speaks about. */
  predicate SameMeter(v: Challenge, w: Challenge) {
    v.windowStarted == w.windowStarted && v.sends == w.sends && v.nextSendAt == w.nextSendAt
  }

  /** A step either leaves a payer's counters and meter alone or charges it once. */
  lemma DoMetersAccount(y: System, step: Step, u: string)
    ensures
      var z := Do(y, step);
      || (SameMeter(Own(z, u), Own(y, u)) && MeterOf(z, Account(u)) == MeterOf(y, Account(u)))
      || (step.SendStep? && Charge(Own(y, u), step.now) != None
          && SameMeter(Own(z, u), Charge(Own(y, u), step.now).value)
          && MeterOf(z, Account(u)) == Metered(MeterOf(y, Account(u)), Own(y, u), step.now))
  {
  }

  lemma DoMetersNumber(y: System, step: Step, p: string)
    ensures
      var z := Do(y, step);
      || (SameMeter(Budget(z, p), Budget(y, p)) && MeterOf(z, Number(p)) == MeterOf(y, Number(p)))
      || (step.SendStep? && Charge(Budget(y, p), step.now) != None
          && SameMeter(Budget(z, p), Charge(Budget(y, p), step.now).value)
          && MeterOf(z, Number(p)) == Metered(MeterOf(y, Number(p)), Budget(y, p), step.now))
  {
  }

  lemma MeterOkSame(v: Challenge, w: Challenge, m: Meter)
    requires MeterOk(v, m) && SameMeter(v, w)
    ensures MeterOk(w, m)
  {
  }

  lemma DoKeepsAccountMeter(y: System, step: Step, u: string)
    requires MeterOk(Own(y, u), MeterOf(y, Account(u)))
    ensures MeterOk(Own(Do(y, step), u), MeterOf(Do(y, step), Account(u)))
  {
    var v, w, m := Own(y, u), Own(Do(y, step), u), MeterOf(y, Account(u));
    DoMetersAccount(y, step, u);
    if SameMeter(w, v) && MeterOf(Do(y, step), Account(u)) == m {
      MeterOkSame(v, w, m);
    } else {
      ChargeKeepsMeter(v, m, step.now);
      MeterOkSame(Charge(v, step.now).value, w, Metered(m, v, step.now));
    }
  }

  lemma DoKeepsNumberMeter(y: System, step: Step, p: string)
    requires MeterOk(Budget(y, p), MeterOf(y, Number(p)))
    ensures MeterOk(Budget(Do(y, step), p), MeterOf(Do(y, step), Number(p)))
  {
    var v, w, m := Budget(y, p), Budget(Do(y, step), p), MeterOf(y, Number(p));
    DoMetersNumber(y, step, p);
    if SameMeter(w, v) && MeterOf(Do(y, step), Number(p)) == m {
      MeterOkSame(v, w, m);
    } else {
      ChargeKeepsMeter(v, m, step.now);
      MeterOkSame(Charge(v, step.now).value, w, Metered(m, v, step.now));
    }
  }

  lemma ConfirmKeepsCode(y: System, step: Step, u: string)
    requires step.ConfirmStep? && CodeOk(y, u) && CodeOk(y, step.user)
    ensures CodeOk(Do(y, step), u)
  {
  }

  lemma SendKeepsCode(y: System, step: Step, u: string)
    requires step.SendStep? && CodeOk(y, u)
    ensures CodeOk(Do(y, step), u)
  {
  }

  lemma DoKeepsCode(y: System, step: Step, u: string)
    requires forall v :: CodeOk(y, v)
    ensures CodeOk(Do(y, step), u)
  {
    assert CodeOk(y, u);
    if step.ConfirmStep? {
      assert CodeOk(y, step.user);
      ConfirmKeepsCode(y, step, u);
    } else if step.SendStep? {
      SendKeepsCode(y, step, u);
    }
  }

  lemma DoKeepsIssued(y: System, step: Step, k: nat)
    requires (forall v :: CodeOk(y, v)) && (forall i :: 0 <= i < |y.issued| ==> IssuedOk(y.issued[i]))
    requires k < |Do(y, step).issued|
    ensures IssuedOk(Do(y, step).issued[k])
  {
    if step.ConfirmStep? {
      assert CodeOk(y, step.user);
    }
  }

  lemma DoKeepsCodes(y: System, step: Step)
    requires CodesOk(y)
    ensures CodesOk(Do(y, step))
  {
    forall u ensures CodeOk(Do(y, step), u) {
      DoKeepsCode(y, step, u);
    }
    forall k | 0 <= k < |Do(y, step).issued| ensures IssuedOk(Do(y, step).issued[k]) {
      DoKeepsIssued(y, step, k);
    }
  }

  lemma {:induction false} RunKeepsCodes(steps: seq<Step>)
    ensures CodesOk(Run(steps))
  {
    if steps != [] {
      RunKeepsCodes(steps[..|steps| - 1]);
      DoKeepsCodes(Run(steps[..|steps| - 1]), steps[|steps| - 1]);
    }
  }

  lemma {:induction false} RunKeepsAccountMeter(steps: seq<Step>, u: string)
    ensures MeterOk(Own(Run(steps), u), MeterOf(Run(steps), Account(u)))
  {
    if steps != [] {
      RunKeepsAccountMeter(steps[..|steps| - 1], u);
      DoKeepsAccountMeter(Run(steps[..|steps| - 1]), steps[|steps| - 1], u);
    }
  }

  lemma {:induction false} RunKeepsNumberMeter(steps: seq<Step>, p: string)
    ensures MeterOk(Budget(Run(steps), p), MeterOf(Run(steps), Number(p)))
  {
    if steps != [] {
      RunKeepsNumberMeter(steps[..|steps| - 1], p);
      DoKeepsNumberMeter(Run(steps[..|steps| - 1]), steps[|steps| - 1], p);
    }
  }

  // ---------------------------------------------------------------- what the meters allow

  lemma {:induction false} Apart(m: Meter, i: nat, k: nat)
    requires Steady(m) && i <= k < |m.times|
    ensures m.times[i] + MINUTE * (k - i) <= m.times[k]
    decreases k
  {
    if i < k {
      Apart(m, i, k - 1);
    }
  }

  /** The window the `i`-th code was counted in. */
  function WindowOf(starts: seq<nat>, i: nat): (j: nat)
    requires starts != [] && starts[0] == 0
    ensures j < |starts| && starts[j] <= i && (j + 1 < |starts| ==> i < starts[j + 1] || j + 1 == |starts|)
    decreases |starts|
  {
    if starts[|starts| - 1] <= i then |starts| - 1
    else WindowOf(starts[..|starts| - 1], i)
  }

  /**
   Ten codes in a row always take an hour: a window opens with a code, so two windows cannot both
   be full in one hour.
   */
  lemma TenTakeAnHour(m: Meter, i: nat)
    requires Steady(m) && i + 9 < |m.times|
    ensures m.times[i] + HOUR <= m.times[i + 9]
  {
    assert WindowOk(m, 0);
    var j := WindowOf(m.starts, i);
    assert WindowOk(m, j);
    var first := m.starts[j];
    assert WindowOk(m, j + 1);
    var second := m.starts[j + 1];
    if i == first {
      Apart(m, second, i + 9);
    } else {
      assert second <= i + 4;
      assert WindowOk(m, j + 2);
      var third := m.starts[j + 2];
      Apart(m, i, second);
      Apart(m, third, i + 9);
    }
  }

  function InHour(times: seq<int>, from: int): set<nat> {
    set i | 0 <= i < |times| && from <= times[i] < from + HOUR
  }

  function Span(lo: nat, n: nat): (s: set<nat>)
    ensures |s| == n && forall i :: i in s <==> lo <= i < lo + n
  {
    if n == 0 then {} else Span(lo, n - 1) + {lo + n - 1}
  }

  lemma SubsetSize(a: set<nat>, b: set<nat>)
    requires a <= b
    ensures |a| <= |b|
  {
    assert b == a + (b - a);
  }

  lemma HourHoldsNine(m: Meter, from: int)
    requires Steady(m)
    ensures |InHour(m.times, from)| <= 9
  {
    if InHour(m.times, from) != {} {
      var some :| some in InHour(m.times, from);
      var lo := some;
      while lo > 0 && lo - 1 in InHour(m.times, from)
        invariant lo in InHour(m.times, from)
      {
        lo := lo - 1;
      }
      forall i | i in InHour(m.times, from) ensures i in Span(lo, 9) {
        if i < lo {
          Apart(m, i, lo - 1);
        } else if lo + 9 <= i {
          TenTakeAnHour(m, lo);
          Apart(m, lo + 9, i);
        }
      }
      SubsetSize(InHour(m.times, from), Span(lo, 9));
    }
  }

  // ---------------------------------------------------------------- whole runs

  /** Whatever is begun, cancelled, confirmed or shared: a payer's codes are a minute apart and nine to the hour. */
  lemma CodesAreMetered(steps: seq<Step>, p: Payer, from: int)
    ensures
      var times := MeterOf(Run(steps), p).times;
      && (forall i :: 0 < i < |times| ==> times[i - 1] + MINUTE <= times[i])
      && |InHour(times, from)| <= 9
  {
    match p {
      case Account(u) => RunKeepsAccountMeter(steps, u);
      case Number(n) => RunKeepsNumberMeter(steps, n);
    }
    HourHoldsNine(MeterOf(Run(steps), p), from);
  }

  /** Cancelling and asking again sends a code whenever both entries can be charged. */
  lemma AskAgain(y: System, u: string, p: string, code: string, now: nat)
    requires |code| == 6 && Charge(Own(y, u), now) != None && Charge(Budget(y, p), now) != None
    ensures
      var z := Do(Do(Do(y, CancelStep(u)), BeginStep(u, now)), SendStep(u, p, code, now));
      && SameMeter(Own(z, u), Charge(Own(y, u), now).value)
      && SameMeter(Budget(z, p), Charge(Budget(y, p), now).value)
      && MeterOf(z, Account(u)).times == MeterOf(y, Account(u)).times + [now]
  {
    var asked := Do(Do(y, CancelStep(u)), BeginStep(u, now));
    assert Own(asked, u) == Begin(Cancel(Own(y, u)), now);
    assert Budget(asked, p) == Budget(y, p) && asked.meters == y.meters;
    assert Send(Own(asked, u), Budget(asked, p), u, p, code, now).Sent?;
  }

  /** The first of a window, four at its end, and five at the start of the next. */
  function BurstAt(k: nat): nat {
    if k == 0 then 300 else if k <= 4 then 3540 + 60 * k else 3600 + 60 * k
  }

  function Asks(u: string, p: string, code: string, n: nat): seq<Step> {
    if n == 0 then []
    else
      Asks(u, p, code, n - 1) + [CancelStep(u)] + [BeginStep(u, BurstAt(n - 1))]
      + [SendStep(u, p, code, BurstAt(n - 1))]
  }

  lemma RunAppend(steps: seq<Step>, step: Step)
    ensures Run(steps + [step]) == Do(Run(steps), step)
  {
    assert (steps + [step])[..|steps|] == steps;
  }

  lemma RunAsks(u: string, p: string, code: string, n: nat)
    ensures
      Run(Asks(u, p, code, n + 1))
      == Do(Do(Do(Run(Asks(u, p, code, n)), CancelStep(u)), BeginStep(u, BurstAt(n))), SendStep(u, p, code, BurstAt(n)))
  {
    var one := Asks(u, p, code, n) + [CancelStep(u)];
    var two := one + [BeginStep(u, BurstAt(n))];
    RunAppend(Asks(u, p, code, n), CancelStep(u));
    RunAppend(one, BeginStep(u, BurstAt(n)));
    RunAppend(two, SendStep(u, p, code, BurstAt(n)));
  }

  /** The entry after the first `n` codes of the burst. */
  predicate Burst(v: Challenge, n: nat) {
    if n == 0 then SameMeter(v, BLANK)
    else
      && v.nextSendAt == BurstAt(n - 1) + MINUTE
      && v.windowStarted == (if n <= 5 then 300 else 3900)
      && v.sends == (if n <= 5 then n else n - 5)
  }

  lemma BurstIsCharged(v: Challenge, n: nat)
    requires Burst(v, n) && n < 10
    ensures Charge(v, BurstAt(n)) != None && Burst(Charge(v, BurstAt(n)).value, n + 1)
  {
  }

  ghost predicate BurstSent(y: System, u: string, p: string, n: nat) {
    && Burst(Own(y, u), n) && Burst(Budget(y, p), n)
    && |MeterOf(y, Account(u)).times| == n
    && forall i :: 0 <= i < n ==> MeterOf(y, Account(u)).times[i] == BurstAt(i)
  }

  lemma BurstGoesOn(y: System, u: string, p: string, code: string, n: nat)
    requires |code| == 6 && n < 10 && BurstSent(y, u, p, n)
    ensures
      var asked := Do(Do(y, CancelStep(u)), BeginStep(u, BurstAt(n)));
      BurstSent(Do(asked, SendStep(u, p, code, BurstAt(n))), u, p, n + 1)
  {
    BurstIsCharged(Own(y, u), n);
    BurstIsCharged(Budget(y, p), n);
    AskAgain(y, u, p, code, BurstAt(n));
  }

  lemma {:induction false} BurstIsSent(u: string, p: string, code: string, n: nat)
    requires |code| == 6 && n <= 10
    ensures BurstSent(Run(Asks(u, p, code, n)), u, p, n)
  {
    if n > 0 {
      BurstIsSent(u, p, code, n - 1);
      RunAsks(u, p, code, n - 1);
      BurstGoesOn(Run(Asks(u, p, code, n - 1)), u, p, code, n - 1);
    }
  }

  lemma NineOfTen(m: Meter)
    requires |m.times| == 10 && forall i :: 0 <= i < |m.times| ==> m.times[i] == BurstAt(i)
    ensures |InHour(m.times, 600)| == 9
  {
    assert InHour(m.times, 600) == Span(1, 9);
  }

  /** Every step of the run concerns the account, and every text goes to its phone with this code. */
  ghost predicate AllFor(steps: seq<Step>, u: string, p: string, code: string) {
    forall i :: 0 <= i < |steps| ==>
      match steps[i]
      case CancelStep(user) => user == u
      case BeginStep(user, _) => user == u
      case SendStep(user, phone, c, _) => user == u && phone == p && c == code
      case _ => false
  }

  lemma {:induction false} AsksAreFor(u: string, p: string, code: string, n: nat)
    ensures AllFor(Asks(u, p, code, n), u, p, code)
  {
    if n > 0 {
      AsksAreFor(u, p, code, n - 1);
    }
  }

  /** Nine codes within an hour do happen, for any account, phone and code. */
  lemma NineDoHappen(u: string, p: string, code: string)
    requires |code| == 6
    ensures exists steps ::
      AllFor(steps, u, p, code) && |InHour(MeterOf(Run(steps), Account(u)).times, 600)| == 9
  {
    var n: nat :| n == 10;
    BurstIsSent(u, p, code, n);
    AsksAreFor(u, p, code, n);
    NineOfTen(MeterOf(Run(Asks(u, p, code, n)), Account(u)));
  }

  /** Each code is tried at most five times within five minutes, and not again after the right try. */
  lemma CodesAreLimited(steps: seq<Step>, k: nat)
    requires k < |Run(steps).issued|
    ensures IssuedOk(Run(steps).issued[k])
  {
    RunKeepsCodes(steps);
  }

  // ---------------------------------------------------------------- what proves a phone

  /** The account typed the code that was sent to the phone; the proof ends 180 days later. */
  ghost predicate ByCode(y: System, u: string, p: Proof, k: nat) {
    && k < |y.issued|
    && var c := y.issued[k];
       && c.user == u && c.phone == p.phone && |c.code| == 6
       && c.tries != [] && c.tries[|c.tries| - 1].typed == c.code
       && p.expiresAt == c.tries[|c.tries| - 1].at + 180 * 86400
  }

  ghost predicate ByContact(y: System, u: string, p: Proof, k: nat) {
    && k < |y.shares| && y.shares[k].user == u && y.shares[k].phone == p.phone
    && p.expiresAt == y.shares[k].at + 180 * 86400
  }

  ghost predicate Earned(y: System, u: string, p: Proof) {
    (exists k: nat :: ByCode(y, u, p, k)) || (exists k: nat :: ByContact(y, u, p, k))
  }

  ghost predicate ProofsOk(y: System) {
    forall u :: u in y.proofs ==> Earned(y, u, y.proofs[u])
  }

  /** A code that was typed right is not tried again, so what it proved stays proved by it. */
  lemma EarnedStays(y: System, step: Step, u: string, p: Proof)
    requires CodesOk(y) && Earned(y, u, p)
    ensures Earned(Do(y, step), u, p)
  {
    var z := Do(y, step);
    if k: nat :| ByCode(y, u, p, k) {
      if step.ConfirmStep? {
        assert CodeOk(y, step.user);
      }
      assert ByCode(z, u, p, k);
    } else {
      var k: nat :| ByContact(y, u, p, k);
      assert ByContact(z, u, p, k);
    }
  }

  /** A typed code changes the account's proof exactly if it is the code it waits for. */
  lemma RightCodeProves(y: System, u: string, typed: string, now: nat)
    requires CodesOk(y)
    ensures
      var z := Do(y, ConfirmStep(u, typed, now));
      var c := LastCode(y, u);
      if AwaitsCode(Own(y, u), now) && c.Some? && typed == c.value.code
      then
        && z.proofs == y.proofs[u := Proof(c.value.phone, now + 180 * 86400)]
        && ByCode(z, u, z.proofs[u], y.current[u])
      else z.proofs == y.proofs
  {
    assert CodeOk(y, u);
  }

  lemma ContactProves(y: System, u: string, phone: string, message: string, now: nat)
    ensures
      var z := Do(y, ContactStep(u, phone, message, now));
      if AwaitsNumber(Own(y, u), now)
      then z.proofs == y.proofs[u := Proof(phone, now + 180 * 86400)] && ByContact(z, u, z.proofs[u], |y.shares|)
      else z.proofs == y.proofs
  {
  }

  lemma OthersProveNothing(y: System, step: Step)
    requires !step.ConfirmStep? && !step.ContactStep?
    ensures Do(y, step).proofs == y.proofs
  {
  }

  lemma DoKeepsProofs(y: System, step: Step)
    requires CodesOk(y) && ProofsOk(y)
    ensures ProofsOk(Do(y, step))
  {
    forall u | u in Do(y, step).proofs ensures Earned(Do(y, step), u, Do(y, step).proofs[u]) {
      if u in y.proofs {
        EarnedStays(y, step, u, y.proofs[u]);
      }
      match step {
        case ConfirmStep(user, typed, now) => RightCodeProves(y, user, typed, now);
        case ContactStep(user, phone, message, now) => ContactProves(y, user, phone, message, now);
        case _ => OthersProveNothing(y, step);
      }
    }
  }

  /**
   Whoever asks, cancels and types what: a proof names the phone of a code its account typed, or of its own
   contact.
   */
  lemma {:induction false} ProofsAreEarned(steps: seq<Step>)
    ensures ProofsOk(Run(steps))
  {
    if steps != [] {
      ProofsAreEarned(steps[..|steps| - 1]);
      RunKeepsCodes(steps[..|steps| - 1]);
      DoKeepsProofs(Run(steps[..|steps| - 1]), steps[|steps| - 1]);
    }
  }
}
