/**
 All events of the outbox together with the record rows they share, over whole runs.
 */
module OutboxWorld {
  import opened Options
  import opened OutboxRows
  import opened OutboxMachine
  import opened OutboxSafety
  import opened OutboxFinality
  import opened OutboxFreshness

  /** A record row and, for the statements below, the versions it has accepted so far. */
  datatype Record = Record(row: Entry, versions: seq<Snapshot>)

  datatype World = World(now: Time, cells: map<string, Cell>, records: map<string, Record>)

  /** Time only moves forward; everything else happens to one event. */
  datatype Move = Pass(seconds: nat) | On(id: string, step: Step)

  function CellOf(g: World, id: string): Cell { if id in g.cells then g.cells[id] else EMPTY }

  function RecordOf(g: World, record: string): Record {
    if record in g.records then g.records[record] else Record(BLANK, [])
  }

  /** An event row is created under the key of its own identity. */
  predicate Addressed(id: string, step: Step) {
    match step
    case IngestStep(e) => e.id == id
    case QueueReminderStep(e, notice) => e.id == id && notice.id == id
    case _ => true
  }

  /** The step accepts a new version into the record row. */
  predicate Accepts(c: Cell, rec: Entry, step: Step) {
    && step.WorkerStep? && step.action.DoPrepare? && step.w in c.workers && c.workers[step.w].pc == AtPrepare
    && c.shared.event.leaseOwner == step.w && !Stale(rec, step.action.snap)
  }

  function Turn(g: World, move: Move): World {
    match move
    case Pass(seconds) => g.(now := g.now + seconds)
    case On(id, step) =>
      if !Addressed(id, step) then g
      else
        var c := CellOf(g, id);
        var key := c.shared.event.event.recordId;
        var rec := RecordOf(g, key);
        var (c', row) := Do(c, rec.row, g.now, step);
        var versions := rec.versions + if Accepts(c, rec.row, step) then [step.action.snap] else [];
        g.(cells := g.cells[id := c'], records := g.records[key := Record(row, versions)])
  }

  function Run(g: World, moves: seq<Move>): World
    decreases |moves|
  {
    if moves == [] then g else Turn(Run(g, moves[..|moves| - 1]), moves[|moves| - 1])
  }

  /** Nothing stored, at any instant after the zero time. */
  function Start(now: Time): World { World(now, map[], map[]) }

  // ---------------------------------------------------------------- whole runs

  ghost predicate VersionsOk(rec: Record) {
    && (if rec.versions == [] then rec.row == BLANK
        else
          var last := rec.versions[|rec.versions| - 1];
          rec.row.kind == RecordRow && rec.row.fingerprint == Some(last.version) && rec.row.changedAt == last.changedAt)
    && (forall i :: 0 < i < |rec.versions| ==>
          && rec.versions[i - 1].changedAt <= rec.versions[i].changedAt
          && rec.versions[i - 1].version != rec.versions[i].version)
  }

  ghost predicate CellsOk(g: World) {
    g.now > 0 && forall id :: id in g.cells ==> Inv(g.cells[id]) && ReceiptsOk(g.cells[id].shared)
  }

  ghost predicate RecordsOk(g: World) {
    forall r :: r in g.records ==> VersionsOk(g.records[r])
  }

  ghost predicate Good(g: World) { CellsOk(g) && RecordsOk(g) }

  lemma RecordMoves(c: Cell, rec: Entry, now: Time, step: Step)
    ensures
      Do(c, rec, now, step).1 ==
        if Accepts(c, rec, step)
        then BLANK.(kind := RecordRow, fingerprint := Some(step.action.snap.version),
            changedAt := step.action.snap.changedAt)
        else rec
  {
  }

  lemma PrepareExtends(c: Cell, rec: Record, now: Time, step: Step)
    requires VersionsOk(rec)
    ensures
      var versions := rec.versions + if Accepts(c, rec.row, step) then [step.action.snap] else [];
      VersionsOk(Record(Do(c, rec.row, now, step).1, versions))
  {
    RecordMoves(c, rec.row, now, step);
  }

  lemma EmptyIsGood()
    ensures Inv(EMPTY) && ReceiptsOk(EMPTY.shared) && Final(EMPTY, 1) && VersionsOk(Record(BLANK, []))
  {
  }

  /** A move touches one cell. */
  lemma TurnCell(g: World, id: string, step: Step, other: string)
    requires Addressed(id, step)
    ensures
      var c := CellOf(g, id);
      CellOf(Turn(g, On(id, step)), other) ==
        if other == id then Do(c, RecordOf(g, c.shared.event.event.recordId).row, g.now, step).0 else CellOf(g, other)
  {
  }

  lemma TurnKeepsCells(g: World, move: Move)
    requires CellsOk(g)
    ensures CellsOk(Turn(g, move))
  {
    if move.On? && Addressed(move.id, move.step) {
      EmptyIsGood();
      var c := CellOf(g, move.id);
      var rec := RecordOf(g, c.shared.event.event.recordId);
      StepKeeps(c, rec.row, g.now, move.step);
      ReceiptStepJoins(c, rec.row, g.now, move.step);
      forall id | id in Turn(g, move).cells
        ensures Inv(CellOf(Turn(g, move), id)) && ReceiptsOk(CellOf(Turn(g, move), id).shared)
      {
        TurnCell(g, move.id, move.step, id);
      }
    }
  }

  lemma TurnKeepsRecords(g: World, move: Move)
    requires RecordsOk(g)
    ensures RecordsOk(Turn(g, move))
  {
    match move
    case Pass(_) =>
    case On(id, step) =>
      var c := CellOf(g, id);
      PrepareExtends(c, RecordOf(g, c.shared.event.event.recordId), g.now, step);
  }

  lemma {:induction false} RunIsGood(now: Time, moves: seq<Move>)
    requires now > 0
    ensures Good(Run(Start(now), moves))
  {
    if moves != [] {
      RunIsGood(now, moves[..|moves| - 1]);
      TurnKeepsCells(Run(Start(now), moves[..|moves| - 1]), moves[|moves| - 1]);
      TurnKeepsRecords(Run(Start(now), moves[..|moves| - 1]), moves[|moves| - 1]);
    }
  }

  function RouteSet(routes: seq<Route>): set<Route> { set r | r in routes }

  lemma {:induction false} DistinctCount(routes: seq<Route>)
    requires forall i, j :: 0 <= i < j < |routes| ==> routes[i] != routes[j]
    ensures |RouteSet(routes)| == |routes|
  {
    if routes != [] {
      var init := routes[..|routes| - 1];
      DistinctCount(init);
      assert RouteSet(routes) == RouteSet(init) + {routes[|routes| - 1]};
    }
  }

  lemma FourRoutes(routes: set<Route>)
    ensures |routes| <= 4
  {
    var all := {Telegram, TelegramAccount, WhatsApp, Sms};
    forall r: Route ensures r in all {
      match r case Telegram => case TelegramAccount => case WhatsApp => case Sms =>
    }
    assert |all| == |routes| + |all - routes| by {
      assert routes + (all - routes) == all;
    }
  }

  lemma DistinctRoutesAreFour(calls: seq<Call>)
    requires forall i, j :: 0 <= i < j < |calls| ==> calls[i].route != calls[j].route
    ensures |calls| <= 4
  {
    var routes := seq(|calls|, i requires 0 <= i < |calls| => calls[i].route);
    DistinctCount(routes);
    FourRoutes(RouteSet(routes));
  }

  /** Whatever workers, crashes, expired leases, receipts and reopenings do: one call per route, all with one notice. */
  lemma CalledAtMostOncePerRoute(now: Time, moves: seq<Move>, id: string)
    requires now > 0
    ensures
      var s := CellOf(Run(Start(now), moves), id).shared;
      && (forall i, j :: 0 <= i < j < |s.history.calls| ==> s.history.calls[i].route != s.history.calls[j].route)
      && |s.history.calls| <= 4
      && (forall i :: 0 <= i < |s.history.calls| ==> s.event.notice == Some(s.history.calls[i].notice))
  {
    RunIsGood(now, moves);
    EmptyIsGood();
    DistinctRoutesAreFour(CellOf(Run(Start(now), moves), id).shared.history.calls);
  }

  lemma PreparedAtMostOnce(now: Time, moves: seq<Move>, id: string)
    requires now > 0
    ensures
      var s := CellOf(Run(Start(now), moves), id).shared;
      s.history.prepared == if s.event.notice == None then [] else [s.event.notice.value]
  {
    RunIsGood(now, moves);
    EmptyIsGood();
  }

  /** Accepted versions of a record only move forward in time, and neighbours differ in what the customer is told. */
  lemma VersionsMoveForward(now: Time, moves: seq<Move>, record: string, i: nat, j: nat)
    requires now > 0
    ensures
      var v := RecordOf(Run(Start(now), moves), record).versions;
      i <= j < |v| ==> v[i].changedAt <= v[j].changedAt && (j == i + 1 ==> v[i].version != v[j].version)
    decreases j
  {
    RunIsGood(now, moves);
    if i < j {
      VersionsMoveForward(now, moves, record, i, j - 1);
    }
  }

  lemma {:induction false} RecordShowsLastVersion(now: Time, moves: seq<Move>, record: string)
    requires now > 0
    ensures
      var rec := RecordOf(Run(Start(now), moves), record);
      rec.versions != [] ==>
        var last := rec.versions[|rec.versions| - 1];
        rec.row.changedAt == last.changedAt && rec.row.fingerprint == Some(last.version)
  {
    RunIsGood(now, moves);
  }

  /** The stored receipt is the highest one ever received, in whatever order and however often. */
  lemma ReceiptsJoin(now: Time, moves: seq<Move>, id: string)
    requires now > 0
    ensures
      var s := CellOf(Run(Start(now), moves), id).shared;
      && s.delivery.report == Best(s.history.receipts)
      && (forall r :: r in s.history.receipts ==> Rank(r) <= Rank(s.delivery.report))
      && (s.history.receipts != [] ==> s.delivery.report in s.history.receipts)
  {
    RunIsGood(now, moves);
    EmptyIsGood();
    BestIsHighest(CellOf(Run(Start(now), moves), id).shared.history.receipts);
  }

  function Refusals(alerts: seq<Answer>): nat {
    if alerts == [] then 0
    else Refusals(alerts[..|alerts| - 1]) + if alerts[|alerts| - 1] == Refused then 1 else 0
  }

  lemma {:induction false} EveryAlertCounts(alerts: seq<Answer>)
    ensures |alerts| == Unresolved(alerts) + Refusals(alerts)
  {
    if alerts != [] {
      EveryAlertCounts(alerts[..|alerts| - 1]);
    }
  }

  /** At most one staff alert is ever taken or left unclear; any other was definitely refused. */
  lemma AlertedAtMostOnce(now: Time, moves: seq<Move>, id: string)
    requires now > 0
    ensures
      var h := CellOf(Run(Start(now), moves), id).shared.history;
      Unresolved(h.alerts) <= 1 && |h.alerts| <= 1 + Refusals(h.alerts)
  {
    RunIsGood(now, moves);
    EmptyIsGood();
    EveryAlertCounts(CellOf(Run(Start(now), moves), id).shared.history.alerts);
  }

  // ---------------------------------------------------------------- what was read before a call

  ghost predicate CellsFresh(g: World) {
    forall id :: id in g.cells ==> CellFresh(g.cells[id])
  }

  lemma TurnStaysFresh(g: World, move: Move)
    requires CellsOk(g) && CellsFresh(g)
    ensures CellsFresh(Turn(g, move))
  {
    EmptyIsGood();
    if move.On? && Addressed(move.id, move.step) {
      var c := CellOf(g, move.id);
      StepStaysFresh(c, RecordOf(g, c.shared.event.event.recordId).row, g.now, move.step);
      forall id | id in Turn(g, move).cells ensures CellFresh(Turn(g, move).cells[id]) {
        TurnCell(g, move.id, move.step, id);
      }
    }
  }

  lemma {:induction false} RunIsFresh(now: Time, moves: seq<Move>)
    requires now > 0
    ensures CellsFresh(Run(Start(now), moves))
  {
    if moves != [] {
      var shorter := moves[..|moves| - 1];
      RunIsFresh(now, shorter);
      RunIsGood(now, shorter);
      TurnStaysFresh(Run(Start(now), shorter), moves[|moves| - 1]);
    }
  }

  /** Nobody is told about a superseded version, a started visit or, by a reminder, a cancelled one. */
  lemma EveryCallWasFresh(now: Time, moves: seq<Move>, id: string, i: nat)
    requires now > 0
    ensures
      var s := CellOf(Run(Start(now), moves), id).shared;
      i < |s.history.calls| ==> Fresh(s.event.event, s.history.calls[i].notice, s.history.calls[i].read)
  {
    RunIsFresh(now, moves);
  }

  // ---------------------------------------------------------------- what a later state still shows

  lemma SettledSelf(s: Shared)
    requires SharedOk(s)
    ensures Settled(s, s)
  {
  }

  lemma TurnSettles(g: World, move: Move, id: string)
    requires Good(g)
    ensures Settled(CellOf(g, id).shared, CellOf(Turn(g, move), id).shared)
  {
    EmptyIsGood();
    SettledSelf(CellOf(g, id).shared);
    if move.On? && Addressed(move.id, move.step) {
      var c := CellOf(g, move.id);
      TurnCell(g, move.id, move.step, id);
      if move.id == id {
        StepSettles(c, RecordOf(g, c.shared.event.event.recordId).row, g.now, move.step);
      }
    }
  }

  lemma RunExtends(g: World, before: seq<Move>, after: seq<Move>)
    requires after != []
    ensures Run(g, before + after) == Turn(Run(g, before + after[..|after| - 1]), after[|after| - 1])
  {
    assert (before + after)[..|before + after| - 1] == before + after[..|after| - 1];
  }

  ghost predicate SettledSince(now: Time, before: seq<Move>, after: seq<Move>, id: string) {
    Settled(CellOf(Run(Start(now), before), id).shared, CellOf(Run(Start(now), before + after), id).shared)
  }

  /** A failed or cancelled SMS stays exactly that, whatever happens to its alert. */
  lemma LostIsSettled(now: Time, moves: seq<Move>, id: string)
    requires now > 0
    ensures
      var e := CellOf(Run(Start(now), moves), id).shared.event;
      Lost(e.report) ==> e.state == Done && e.outcome in {SmsAlertRetryable, SmsFailureOutcome(e.report)}
  {
    EmptyIsGood();
    RunIsGood(now, moves);
  }

  lemma SettledOneMore(now: Time, before: seq<Move>, after: seq<Move>, id: string)
    requires now > 0 && after != [] && SettledSince(now, before, after[..|after| - 1], id)
    ensures SettledSince(now, before, after, id)
  {
    var shorter := before + after[..|after| - 1];
    RunExtends(Start(now), before, after);
    RunIsGood(now, shorter);
    TurnSettles(Run(Start(now), shorter), after[|after| - 1], id);
  }

  /** Notices, verdicts, attempts and calls survive every continuation of every run. */
  lemma {:induction false} SettledForGood(now: Time, before: seq<Move>, after: seq<Move>, id: string)
    requires now > 0
    ensures SettledSince(now, before, after, id)
    decreases |after|
  {
    if after == [] {
      assert before + after == before;
      LostIsSettled(now, before, id);
    } else {
      SettledForGood(now, before, after[..|after| - 1], id);
      SettledOneMore(now, before, after, id);
    }
  }

  // ---------------------------------------------------------------- runs without outlived leases

  predicate TimelyMove(g: World, move: Move) {
    match move
    case Pass(_) => true
    case On(id, step) => TimelyStep(CellOf(g, id), g.now, step)
  }

  predicate TimelyRun(g: World, moves: seq<Move>)
    decreases |moves|
  {
    moves == [] || (TimelyRun(g, moves[..|moves| - 1]) && TimelyMove(Run(g, moves[..|moves| - 1]), moves[|moves| - 1]))
  }

  ghost predicate CellsFinal(g: World) {
    forall id :: id in g.cells ==> Final(g.cells[id], g.now)
  }

  lemma StaysFinalLater(c: Cell, now: Time, later: Time)
    requires Final(c, now) && now <= later
    ensures Final(c, later)
  {
  }

  lemma PassStaysFinal(g: World, seconds: nat)
    requires CellsFinal(g)
    ensures CellsFinal(Turn(g, Pass(seconds)))
  {
    forall id | id in g.cells ensures Final(g.cells[id], g.now + seconds) {
      StaysFinalLater(g.cells[id], g.now, g.now + seconds);
    }
  }

  lemma CellStaysFinal(g: World, id: string, step: Step, other: string)
    requires CellsOk(g) && CellsFinal(g) && TimelyStep(CellOf(g, id), g.now, step) && Addressed(id, step)
    requires other in Turn(g, On(id, step)).cells
    ensures Final(Turn(g, On(id, step)).cells[other], g.now)
  {
    TurnCell(g, id, step, other);
    if other == id {
      EmptyIsGood();
      var c := CellOf(g, id);
      StepStaysFinal(c, RecordOf(g, c.shared.event.event.recordId).row, g.now, step);
    }
  }

  lemma OnStaysFinal(g: World, id: string, step: Step)
    requires CellsOk(g) && CellsFinal(g) && TimelyStep(CellOf(g, id), g.now, step) && Addressed(id, step)
    ensures CellsFinal(Turn(g, On(id, step)))
  {
    forall other | other in Turn(g, On(id, step)).cells ensures Final(Turn(g, On(id, step)).cells[other], g.now) {
      CellStaysFinal(g, id, step, other);
    }
  }

  lemma TurnStaysFinal(g: World, move: Move)
    requires CellsOk(g) && TimelyMove(g, move) && CellsFinal(g)
    ensures CellsFinal(Turn(g, move))
  {
    if move.Pass? {
      PassStaysFinal(g, move.seconds);
    } else if Addressed(move.id, move.step) {
      OnStaysFinal(g, move.id, move.step);
    }
  }

  lemma {:induction false} TimelyRunIsFinal(now: Time, moves: seq<Move>)
    requires now > 0 && TimelyRun(Start(now), moves)
    ensures CellsFinal(Run(Start(now), moves))
  {
    if moves != [] {
      var shorter := moves[..|moves| - 1];
      TimelyRunIsFinal(now, shorter);
      RunIsGood(now, shorter);
      TurnStaysFinal(Run(Start(now), shorter), moves[|moves| - 1]);
    }
  }

  /** In a timely run every route but the last attempted was refused or reported failed. */
  lemma EarlierRoutesWereRefused(now: Time, moves: seq<Move>, id: string)
    requires now > 0 && TimelyRun(Start(now), moves)
    ensures OnlyLastOpen(CellOf(Run(Start(now), moves), id).shared)
  {
    EmptyIsGood();
    TimelyRunIsFinal(now, moves);
  }

  /** A route that is never refused and never reported failed stays the last one, in every timely continuation. */
  lemma UnrefusedSendIsFinal(now: Time, before: seq<Move>, after: seq<Move>, id: string)
    requires now > 0 && TimelyRun(Start(now), before + after)
    ensures
      var s := CellOf(Run(Start(now), before), id).shared;
      var t := CellOf(Run(Start(now), before + after), id).shared;
      s.delivery.attempted != [] && Last(s.delivery.attempted) !in t.history.refused ==>
        t.delivery.attempted == s.delivery.attempted
  {
    SettledForGood(now, before, after, id);
    EarlierRoutesWereRefused(now, before + after, id);
    var s := CellOf(Run(Start(now), before), id).shared;
    var t := CellOf(Run(Start(now), before + after), id).shared;
    if s.delivery.attempted != [] && Last(s.delivery.attempted) !in t.history.refused {
      var k := |s.delivery.attempted| - 1;
      assert t.delivery.attempted[k] == s.delivery.attempted[k];
      assert !(k < |t.delivery.attempted| - 1);
    }
  }
}
