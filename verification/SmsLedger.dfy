/**
 The SMS reservation ledger of the web booking form.

 One insert checks every budget against the rows still stored and reserves.  The statements
 below are about the full history of reservations, which cleanup never shortens.
 */
module SmsLedger {
  import opened Options

  datatype Purpose = Otp | Confirmation | Reminder

  datatype Row = Row(
    id: string, session: string, phone: string, ip: string, purpose: Purpose, draft: Option<string>, at: int)

  /** A sliding budget and what it counts. */
  datatype Budget = PhoneHour(phone: string) | SessionHour(session: string) | IpHour(ip: string)
                  | PhoneMinute(phone: string) | SessionMinute(session: string)

  const DAY: int := 86400
  const RETAIN: int := 62 * DAY
  const OFFSET: int := 14400

  function Window(b: Budget): int {
    if b.PhoneMinute? || b.SessionMinute? then 60 else 3600
  }

  function Limit(b: Budget): nat {
    if b.PhoneMinute? || b.SessionMinute? then 1 else if b.IpHour? then 10 else 5
  }

  predicate Counts(b: Budget, r: Row) {
    match b
    case PhoneHour(p) => r.phone == p
    case SessionHour(s) => r.session == s
    case IpHour(i) => r.ip == i
    case PhoneMinute(p) => r.phone == p && r.purpose == Otp
    case SessionMinute(s) => r.session == s && r.purpose == Otp
  }

  /** Limits of the studio; `monthStart` is the start of the month an instant belongs to. */
  datatype Caps = Caps(daily: Option<nat>, monthly: Option<nat>, monthStart: int -> int)

  function DayStart(now: int): int { (now + OFFSET) / DAY * DAY - OFFSET }

  /** Months are intervals of at most 31 days that end where they are read. */
  ghost predicate Calendar(monthStart: int -> int) {
    && (forall t :: monthStart(t) <= t <= monthStart(t) + 31 * DAY)
    && (forall t, u :: monthStart(t) <= u <= t ==> monthStart(u) == monthStart(t))
  }

  /** Rows a budget counts strictly after `from` and up to `to`. */
  function Spent(rows: seq<Row>, b: Budget, from: int, to: int): nat {
    if rows == [] then 0
    else
      var r := rows[|rows| - 1];
      Spent(rows[..|rows| - 1], b, from, to) + if Counts(b, r) && from < r.at <= to then 1 else 0
  }

  function SpentAfter(rows: seq<Row>, b: Budget, from: int): nat {
    if rows == [] then 0
    else
      var r := rows[|rows| - 1];
      SpentAfter(rows[..|rows| - 1], b, from) + if Counts(b, r) && r.at > from then 1 else 0
  }

  /** Every row is one SMS part. */
  function Parts(rows: seq<Row>, since: int): nat {
    if rows == [] then 0
    else Parts(rows[..|rows| - 1], since) + if rows[|rows| - 1].at >= since then 1 else 0
  }

  predicate Under(rows: seq<Row>, cap: Option<nat>, since: int) {
    match cap
    case None => true
    case Some(n) => Parts(rows, since) < n
  }

  predicate Room(rows: seq<Row>, r: Row, b: Budget) { SpentAfter(rows, b, r.at - Window(b)) < Limit(b) }

  /** The condition of the insert. */
  predicate Affordable(rows: seq<Row>, r: Row, caps: Caps) {
    && Under(rows, caps.daily, DayStart(r.at))
    && Under(rows, caps.monthly, caps.monthStart(r.at))
    && (r.purpose == Otp ==> Room(rows, r, PhoneMinute(r.phone)))
    && Room(rows, r, PhoneHour(r.phone))
    && Room(rows, r, SessionHour(r.session))
    && Room(rows, r, IpHour(r.ip))
    && (r.purpose == Otp ==> Room(rows, r, SessionMinute(r.session)))
  }

  /** The unique indexes: one row per identity, and per draft and purpose. */
  predicate Clashes(rows: seq<Row>, r: Row) {
    exists i :: 0 <= i < |rows|
      && (rows[i].id == r.id || (r.draft != None && rows[i].draft == r.draft && rows[i].purpose == r.purpose))
  }

  function Kept(rows: seq<Row>, cut: int): seq<Row> {
    if rows == [] then []
    else Kept(rows[..|rows| - 1], cut) + if rows[|rows| - 1].at >= cut then [rows[|rows| - 1]] else []
  }

  class Outbox {
    var rows: seq<Row>
    const caps: Caps

    constructor (caps: Caps)
      ensures rows == [] && this.caps == caps
    {
      this.caps := caps;
      rows := [];
    }

    /** False when a budget is used up or an index refuses the row; nothing is refunded. */
    method ReserveSms(r: Row) returns (reserved: bool)
      modifies this
      ensures reserved == (Affordable(old(rows), r, caps) && !Clashes(old(rows), r))
      ensures rows == if reserved then old(rows) + [r] else old(rows)
    {
      var affordable := Under(rows, caps.daily, DayStart(r.at)) && Under(rows, caps.monthly, caps.monthStart(r.at));
      if r.purpose == Otp {
        affordable := affordable && Room(rows, r, PhoneMinute(r.phone));
      }
      affordable := affordable && Room(rows, r, PhoneHour(r.phone));
      affordable := affordable && Room(rows, r, SessionHour(r.session));
      affordable := affordable && Room(rows, r, IpHour(r.ip));
      if r.purpose == Otp {
        affordable := affordable && Room(rows, r, SessionMinute(r.session));
      }
      reserved := affordable && !Clashes(rows, r);
      if reserved {
        rows := rows + [r];
      }
    }

    /** Recent rows stay, each as often as it was stored, and no later reservation is decided differently. */
    method Cleanup(now: int)
      modifies this
      ensures rows == Kept(old(rows), now - RETAIN)
      ensures forall r :: multiset(rows)[r] == if now - r.at <= 62 * 86400 then multiset(old(rows))[r] else 0
      ensures Calendar(caps.monthStart) ==>
        forall r: Row :: r.at >= now ==> Affordable(rows, r, caps) == Affordable(old(rows), r, caps)
    {
      KeptAreRecent(rows, now - RETAIN);
      forall r: Row | Calendar(caps.monthStart) && r.at >= now
        ensures Affordable(Kept(rows, now - RETAIN), r, caps) == Affordable(rows, r, caps)
      {
        CleanupReopensNothing(rows, now - RETAIN, r, caps);
      }
      rows := Kept(rows, now - RETAIN);
    }
  }

  lemma {:induction false} KeptAreRecent(rows: seq<Row>, cut: int)
    ensures forall r :: multiset(Kept(rows, cut))[r] == if r.at >= cut then multiset(rows)[r] else 0
  {
    if rows != [] {
      KeptAreRecent(rows[..|rows| - 1], cut);
      assert rows == rows[..|rows| - 1] + [rows[|rows| - 1]];
    }
  }

  // ---------------------------------------------------------------- whole runs

  datatype Step = Reserve(r: Row) | Clean(now: int)

  /** The rows stored, every reservation ever made, and the last instant seen. */
  datatype Ledger = Ledger(rows: seq<Row>, history: seq<Row>, now: int)

  const EMPTY: Ledger := Ledger([], [], 0)

  function Instant(step: Step): int { if step.Reserve? then step.r.at else step.now }

  function Do(l: Ledger, caps: Caps, step: Step): Ledger {
    match step
    case Reserve(r) =>
      if Affordable(l.rows, r, caps) && !Clashes(l.rows, r)
      then Ledger(l.rows + [r], l.history + [r], r.at)
      else l.(now := r.at)
    case Clean(now) => Ledger(Kept(l.rows, now - RETAIN), l.history, now)
  }

  function Run(caps: Caps, steps: seq<Step>): Ledger
    decreases |steps|
  {
    if steps == [] then EMPTY else Do(Run(caps, steps[..|steps| - 1]), caps, steps[|steps| - 1])
  }

  /** The clock starts at zero and never runs back. */
  predicate Forward(caps: Caps, steps: seq<Step>)
    decreases |steps|
  {
    steps == [] ||
    (Forward(caps, steps[..|steps| - 1]) && Run(caps, steps[..|steps| - 1]).now <= Instant(steps[|steps| - 1]))
  }

  /** Each step is its one statement, and the ledger's instant is that of its last step. */
  lemma StepsAreStatements(l: Ledger, caps: Caps, r: Row, now: int)
    ensures Do(l, caps, Reserve(r)).now == r.at && Do(l, caps, Clean(now)).now == now
    ensures
      var fits := Affordable(l.rows, r, caps) && !Clashes(l.rows, r);
      var m := Do(l, caps, Reserve(r));
      && m.rows == (if fits then l.rows + [r] else l.rows)
      && m.history == (if fits then l.history + [r] else l.history)
    ensures
      var m := Do(l, caps, Clean(now));
      m.rows == Kept(l.rows, now - 62 * 86400) && m.history == l.history
  {
  }

  // ---------------------------------------------------------------- counting

  lemma KeptSnoc(rows: seq<Row>, r: Row, cut: int)
    ensures Kept(rows + [r], cut) == Kept(rows, cut) + if r.at >= cut then [r] else []
  {
    assert (rows + [r])[..|rows|] == rows;
  }

  lemma SpentSnoc(rows: seq<Row>, r: Row, b: Budget, from: int)
    ensures SpentAfter(rows + [r], b, from) == SpentAfter(rows, b, from) + if Counts(b, r) && r.at > from then 1 else 0
  {
    assert (rows + [r])[..|rows|] == rows;
  }

  lemma PartsSnoc(rows: seq<Row>, r: Row, since: int)
    ensures Parts(rows + [r], since) == Parts(rows, since) + if r.at >= since then 1 else 0
  {
    assert (rows + [r])[..|rows|] == rows;
  }

  lemma {:induction false} KeptSpent(rows: seq<Row>, cut: int, b: Budget, from: int)
    requires cut <= from + 1
    ensures SpentAfter(Kept(rows, cut), b, from) == SpentAfter(rows, b, from)
  {
    if rows != [] {
      var init, r := rows[..|rows| - 1], rows[|rows| - 1];
      KeptSpent(init, cut, b, from);
      SpentSnoc(Kept(init, cut), r, b, from);
      assert Kept(init, cut) + [] == Kept(init, cut);
    }
  }

  lemma {:induction false} KeptParts(rows: seq<Row>, cut: int, since: int)
    requires cut <= since
    ensures Parts(Kept(rows, cut), since) == Parts(rows, since)
  {
    if rows != [] {
      var init, r := rows[..|rows| - 1], rows[|rows| - 1];
      KeptParts(init, cut, since);
      if r.at >= cut {
        assert Kept(rows, cut) == Kept(init, cut) + [r];
        PartsSnoc(Kept(init, cut), r, since);
      } else {
        assert Kept(rows, cut) == Kept(init, cut);
      }
    }
  }

  lemma {:induction false} SpentWithin(rows: seq<Row>, b: Budget, from: int, to: int, since: int)
    requires since <= from
    ensures Spent(rows, b, from, to) <= SpentAfter(rows, b, since)
  {
    if rows != [] {
      SpentWithin(rows[..|rows| - 1], b, from, to, since);
    }
  }

  lemma SpentAppend(rows: seq<Row>, r: Row, b: Budget, from: int, to: int)
    ensures
      Spent(rows + [r], b, from, to) == Spent(rows, b, from, to) + if Counts(b, r) && from < r.at <= to then 1 else 0
  {
    assert (rows + [r])[..|rows|] == rows;
  }

  lemma {:induction false} KeptTwice(rows: seq<Row>, cut: int, later: int)
    requires cut <= later
    ensures Kept(Kept(rows, cut), later) == Kept(rows, later)
  {
    if rows != [] {
      var init, r := rows[..|rows| - 1], rows[|rows| - 1];
      KeptTwice(init, cut, later);
      KeptSnoc(Kept(init, cut), r, later);
      assert Kept(init, cut) + [] == Kept(init, cut);
    }
  }

  lemma RoomKept(history: seq<Row>, cut: int, r: Row, b: Budget)
    requires cut <= r.at - RETAIN
    ensures Room(Kept(history, cut), r, b) == Room(history, r, b)
  {
    KeptSpent(history, cut, b, r.at - Window(b));
  }

  lemma UnderKept(history: seq<Row>, cut: int, cap: Option<nat>, since: int)
    requires cut <= since
    ensures Under(Kept(history, cut), cap, since) == Under(history, cap, since)
  {
    KeptParts(history, cut, since);
  }

  /** Deleting rows older than the retention time changes no budget decision. */
  lemma CleanupReopensNothing(history: seq<Row>, cut: int, r: Row, caps: Caps)
    requires Calendar(caps.monthStart) && cut <= r.at - RETAIN
    ensures Affordable(Kept(history, cut), r, caps) == Affordable(history, r, caps)
  {
    UnderKept(history, cut, caps.daily, DayStart(r.at));
    UnderKept(history, cut, caps.monthly, caps.monthStart(r.at));
    RoomKept(history, cut, r, PhoneMinute(r.phone));
    RoomKept(history, cut, r, PhoneHour(r.phone));
    RoomKept(history, cut, r, SessionHour(r.session));
    RoomKept(history, cut, r, IpHour(r.ip));
    RoomKept(history, cut, r, SessionMinute(r.session));
  }

  // ---------------------------------------------------------------- the invariant

  /** Reservations of one day, or of one month, under a given start function. */
  function In(rows: seq<Row>, start: int -> int, first: int): nat {
    if rows == [] then 0
    else In(rows[..|rows| - 1], start, first) + if start(rows[|rows| - 1].at) == first then 1 else 0
  }

  lemma {:induction false} InWithinParts(rows: seq<Row>, start: int -> int, first: int)
    requires forall t :: start(t) <= t
    ensures In(rows, start, first) <= Parts(rows, first)
  {
    if rows != [] {
      InWithinParts(rows[..|rows| - 1], start, first);
    }
  }

  lemma InAppend(rows: seq<Row>, r: Row, start: int -> int, first: int)
    ensures In(rows + [r], start, first) == In(rows, start, first) + if start(r.at) == first then 1 else 0
  {
    assert (rows + [r])[..|rows|] == rows;
  }

  /** One full window of the budget, open at `from`. */
  function SpentFrom(rows: seq<Row>, b: Budget, from: int): nat { Spent(rows, b, from, from + Window(b)) }

  ghost predicate Within(history: seq<Row>, b: Budget) {
    forall from :: SpentFrom(history, b, from) <= Limit(b)
  }

  ghost predicate Capped(history: seq<Row>, cap: Option<nat>, start: int -> int) {
    cap != None ==> forall first :: In(history, start, first) <= cap.value
  }

  ghost predicate Inv(l: Ledger, caps: Caps) {
    && (exists cut :: cut <= l.now - RETAIN && l.rows == Kept(l.history, cut))
    && (forall b :: Within(l.history, b))
    && Capped(l.history, caps.daily, DayStart)
    && Capped(l.history, caps.monthly, caps.monthStart)
  }

  lemma ReserveStaysWithin(history: seq<Row>, r: Row, caps: Caps, b: Budget)
    requires Affordable(history, r, caps) && Within(history, b)
    ensures Within(history + [r], b)
  {
    forall from ensures SpentFrom(history + [r], b, from) <= Limit(b) {
      SpentAppend(history, r, b, from, from + Window(b));
      assert SpentFrom(history, b, from) <= Limit(b);
      if Counts(b, r) && from < r.at <= from + Window(b) {
        SpentWithin(history, b, from, from + Window(b), r.at - Window(b));
        assert Room(history, r, b);
      }
    }
  }

  lemma ReserveStaysCapped(history: seq<Row>, r: Row, cap: Option<nat>, start: int -> int)
    requires forall t :: start(t) <= t
    requires Under(history, cap, start(r.at)) && Capped(history, cap, start)
    ensures Capped(history + [r], cap, start)
  {
    if cap != None {
      forall first ensures In(history + [r], start, first) <= cap.value {
        InAppend(history, r, start, first);
        if first == start(r.at) {
          InWithinParts(history, start, first);
        }
      }
    }
  }

  lemma DoKeeps(l: Ledger, caps: Caps, step: Step)
    requires Calendar(caps.monthStart) && Inv(l, caps) && l.now <= Instant(step)
    ensures Inv(Do(l, caps, step), caps)
  {
    var cut :| cut <= l.now - RETAIN && l.rows == Kept(l.history, cut);
    match step
    case Clean(now) => KeptTwice(l.history, cut, now - RETAIN);
    case Reserve(r) =>
      if Affordable(l.rows, r, caps) && !Clashes(l.rows, r) {
        CleanupReopensNothing(l.history, cut, r, caps);
        KeptSnoc(l.history, r, cut);
        forall b ensures Within(l.history + [r], b) {
          ReserveStaysWithin(l.history, r, caps, b);
        }
        ReserveStaysCapped(l.history, r, caps.daily, DayStart);
        ReserveStaysCapped(l.history, r, caps.monthly, caps.monthStart);
      }
  }

  lemma {:induction false} RunKeeps(caps: Caps, steps: seq<Step>)
    requires Calendar(caps.monthStart) && Forward(caps, steps)
    ensures Inv(Run(caps, steps), caps)
  {
    if steps == [] {
      assert EMPTY.rows == Kept(EMPTY.history, -RETAIN);
    } else {
      RunKeeps(caps, steps[..|steps| - 1]);
      DoKeeps(Run(caps, steps[..|steps| - 1]), caps, steps[|steps| - 1]);
    }
  }

  /** Every sliding window of the full history respects its budget, cleanup or not. */
  lemma EveryWindowWithinBudget(caps: Caps, steps: seq<Step>, b: Budget, from: int)
    requires Calendar(caps.monthStart) && Forward(caps, steps)
    ensures SpentFrom(Run(caps, steps).history, b, from) <= Limit(b)
  {
    RunKeeps(caps, steps);
    assert Within(Run(caps, steps).history, b);
  }

  /** No local day and no month exceeds its cap. */
  lemma EveryDayAndMonthWithinCap(caps: Caps, steps: seq<Step>, first: int)
    requires Calendar(caps.monthStart) && Forward(caps, steps)
    ensures caps.daily != None ==> In(Run(caps, steps).history, DayStart, first) <= caps.daily.value
    ensures caps.monthly != None ==> In(Run(caps, steps).history, caps.monthStart, first) <= caps.monthly.value
  {
    RunKeeps(caps, steps);
  }

  // ---------------------------------------------------------------- and nothing is refused without need

  /** The budgets in numbers. */
  lemma BudgetsAre(b: Budget, r: Row)
    ensures Window(b) == if b.PhoneMinute? || b.SessionMinute? then 60 else 3600
    ensures b.PhoneHour? || b.SessionHour? ==> Limit(b) == 5
    ensures b.IpHour? ==> Limit(b) == 10
    ensures b.PhoneMinute? || b.SessionMinute? ==> Limit(b) == 1
    ensures b.PhoneHour? || b.PhoneMinute? ==>
      (Counts(b, r) <==> b.phone == r.phone && (b.PhoneHour? || r.purpose == Otp))
    ensures b.SessionHour? || b.SessionMinute? ==>
      (Counts(b, r) <==> b.session == r.session && (b.SessionHour? || r.purpose == Otp))
    ensures b.IpHour? ==> (Counts(b, r) <==> b.ip == r.ip)
  {
  }

  /** The day starts at midnight four hours east of Greenwich. */
  lemma DayStartsAtMidnight(now: int)
    ensures DayStart(now) <= now < DayStart(now) + 86400 && (DayStart(now) + 4 * 3600) % 86400 == 0
  {
  }

  lemma DaysAreIntervals(t: int, u: int)
    requires DayStart(t) <= u <= t
    ensures DayStart(u) == DayStart(t)
  {
    DayStartsAtMidnight(t);
    DayStartsAtMidnight(u);
  }

  ghost predicate Until(rows: seq<Row>, now: int) { forall i :: 0 <= i < |rows| ==> rows[i].at <= now }

  lemma {:induction false} HistoryIsPast(caps: Caps, steps: seq<Step>)
    requires Forward(caps, steps)
    ensures Until(Run(caps, steps).history, Run(caps, steps).now)
  {
    if steps != [] {
      HistoryIsPast(caps, steps[..|steps| - 1]);
    }
  }

  lemma {:induction false} SpentUntil(rows: seq<Row>, b: Budget, from: int, now: int)
    requires Until(rows, now)
    ensures Spent(rows, b, from, now) == SpentAfter(rows, b, from)
  {
    if rows != [] {
      assert rows[|rows| - 1].at <= now;
      SpentUntil(rows[..|rows| - 1], b, from, now);
    }
  }

  lemma {:induction false} InIsParts(rows: seq<Row>, start: int -> int, now: int)
    requires Until(rows, now)
    requires (forall t :: start(t) <= t) && (forall u :: start(now) <= u <= now ==> start(u) == start(now))
    ensures In(rows, start, start(now)) == Parts(rows, start(now))
  {
    if rows != [] {
      assert rows[|rows| - 1].at <= now;
      InIsParts(rows[..|rows| - 1], start, now);
    }
  }

  /** With the row, no window that ends with it exceeds its budget ... */
  ghost predicate FitsBudgets(history: seq<Row>, r: Row) {
    forall b :: Counts(b, r) ==> SpentFrom(history + [r], b, r.at - Window(b)) <= Limit(b)
  }

  /** ... and neither its day nor its month exceeds the cap. */
  ghost predicate FitsCap(history: seq<Row>, r: Row, cap: Option<nat>, start: int -> int) {
    cap != None ==> In(history + [r], start, start(r.at)) <= cap.value
  }

  lemma RoomExactly(history: seq<Row>, r: Row, b: Budget)
    requires Until(history, r.at) && Counts(b, r)
    ensures Room(history, r, b) <==> SpentFrom(history + [r], b, r.at - Window(b)) <= Limit(b)
  {
    SpentAppend(history, r, b, r.at - Window(b), r.at);
    SpentUntil(history, b, r.at - Window(b), r.at);
  }

  lemma UnderExactly(history: seq<Row>, r: Row, cap: Option<nat>, start: int -> int)
    requires Until(history, r.at)
    requires (forall t :: start(t) <= t) && (forall u :: start(r.at) <= u <= r.at ==> start(u) == start(r.at))
    ensures Under(history, cap, start(r.at)) <==> FitsCap(history, r, cap, start)
  {
    InAppend(history, r, start, start(r.at));
    InIsParts(history, start, r.at);
  }

  lemma BudgetsExactly(history: seq<Row>, r: Row)
    requires Until(history, r.at)
    ensures FitsBudgets(history, r) <==>
      && Room(history, r, PhoneHour(r.phone)) && Room(history, r, SessionHour(r.session))
      && Room(history, r, IpHour(r.ip))
      && (r.purpose == Otp ==> Room(history, r, PhoneMinute(r.phone)) && Room(history, r, SessionMinute(r.session)))
  {
    forall b | Counts(b, r)
      ensures Room(history, r, b) <==> SpentFrom(history + [r], b, r.at - Window(b)) <= Limit(b)
    {
      RoomExactly(history, r, b);
    }
    assert Counts(PhoneHour(r.phone), r) && Counts(SessionHour(r.session), r) && Counts(IpHour(r.ip), r);
    if r.purpose == Otp {
      assert Counts(PhoneMinute(r.phone), r) && Counts(SessionMinute(r.session), r);
    }
  }

  /** A reservation is affordable exactly if the whole history with it respects every budget and cap. */
  lemma RefusedOnlyOverBudget(caps: Caps, steps: seq<Step>, r: Row)
    requires Calendar(caps.monthStart) && Forward(caps, steps) && Run(caps, steps).now <= r.at
    ensures
      var l := Run(caps, steps);
      Affordable(l.rows, r, caps) <==>
        && FitsBudgets(l.history, r)
        && FitsCap(l.history, r, caps.daily, DayStart) && FitsCap(l.history, r, caps.monthly, caps.monthStart)
  {
    var l := Run(caps, steps);
    RunKeeps(caps, steps);
    HistoryIsPast(caps, steps);
    var cut :| cut <= l.now - RETAIN && l.rows == Kept(l.history, cut);
    CleanupReopensNothing(l.history, cut, r, caps);
    BudgetsExactly(l.history, r);
    forall u | DayStart(r.at) <= u <= r.at ensures DayStart(u) == DayStart(r.at) {
      DaysAreIntervals(r.at, u);
    }
    UnderExactly(l.history, r, caps.daily, DayStart);
    UnderExactly(l.history, r, caps.monthly, caps.monthStart);
  }

  /** The indexes refuse a row whose identity is stored, or whose draft has one of the same purpose. */
  lemma IndexesExactly(rows: seq<Row>, r: Row)
    ensures Clashes(rows, r) <==>
      || (exists row :: row in rows && row.id == r.id)
      || (r.draft.Some? && exists row :: row in rows && row.draft == r.draft && row.purpose == r.purpose)
  {
    if row :| row in rows && (row.id == r.id || (r.draft.Some? && row.draft == r.draft && row.purpose == r.purpose)) {
      var i :| 0 <= i < |rows| && rows[i] == row;
    }
  }
}
