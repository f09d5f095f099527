/**
 What customers are told about a booking, over whole runs: which version, and as what.
 */
module OutboxAnnouncements {
  import opened Options
  import opened OutboxRows
  import opened OutboxMachine
  import opened OutboxSafety
  import opened OutboxWorld
  import opened OutboxLateRuns

  /** The versions the record of the event had accepted before move `j`. */
  function VersionsAt(now: Time, moves: seq<Move>, id: string, j: nat): seq<Snapshot>
    requires j <= |moves|
  {
    RecordOf(WorldAt(now, moves, j), CellAt(now, moves, id, j).shared.event.event.recordId).versions
  }

  /** The version differs from the last accepted one in what the customer is told, and is not older. */
  predicate Newer(versions: seq<Snapshot>, snap: Snapshot) {
    versions != [] ==>
      var last := versions[|versions| - 1];
      last.version != snap.version && last.changedAt <= snap.changedAt
  }

  /** Cancelled versions are announced as cancelled, the first one of a record as new, any later one as changed. */
  predicate AnnouncedAs(versions: seq<Snapshot>, snap: Snapshot, purpose: Purpose) {
    && (purpose == BookingCancelled <==> snap.version.status == Cancelled)
    && (purpose == BookingCreated <==> snap.version.status != Cancelled && versions == [])
    && (purpose == BookingChanged <==> snap.version.status != Cancelled && versions != [])
  }

  /** The step makes the notice: as handed over, or from a version its record accepts. */
  predicate Makes(c: Cell, versions: seq<Snapshot>, step: Step, notice: Notice) {
    match step
    case QueueReminderStep(e, given) => c.shared.event.kind == NoKind && notice == given
    case WorkerStep(w, action) =>
      && action.DoPrepare? && c.shared.event.leaseOwner == w
      && notice.id == c.shared.event.event.id
      && notice.snapshot == action.snap && notice.fingerprint == action.snap.version
      && Newer(versions, action.snap) && AnnouncedAs(versions, action.snap, notice.purpose)
    case _ => false
  }

  lemma OutsideMakes(s: Shared, now: Time, step: Step)
    requires SharedOk(s) && s.event.notice == None && Outside(s, now, step).event.notice.Some?
    ensures step.QueueReminderStep? && s.event.kind == NoKind && Outside(s, now, step).event.notice == Some(step.notice)
  {
  }

  lemma ActMakesOnly(s: Shared, w: Owner, x: Worker, now: Time, rec: Entry, action: Action)
    requires Ready(s, w, x, now, action) && s.event.notice == None
    requires Act(s, w, x, now, rec, action).shared.event.notice.Some?
    ensures action.DoPrepare?
  {
  }

  lemma PrepareMakes(s: Shared, w: Owner, x: Worker, now: Time, rec: Record, action: Action)
    requires Ready(s, w, x, now, action) && VersionsOk(rec) && s.event.notice == None && action.DoPrepare?
    requires Act(s, w, x, now, rec.row, action).shared.event.notice.Some?
    ensures
      var notice := Act(s, w, x, now, rec.row, action).shared.event.notice.value;
      && s.event.leaseOwner == w && notice.id == s.event.event.id
      && notice.snapshot == action.snap && notice.fingerprint == action.snap.version
      && Newer(rec.versions, action.snap) && AnnouncedAs(rec.versions, action.snap, notice.purpose)
  {
  }

  lemma StepMakes(c: Cell, rec: Record, now: Time, step: Step)
    requires Inv(c) && VersionsOk(rec) && now > 0 && c.shared.event.notice == None
    requires Do(c, rec.row, now, step).0.shared.event.notice.Some?
    ensures Makes(c, rec.versions, step, Do(c, rec.row, now, step).0.shared.event.notice.value)
  {
    match step
    case StartStep(_, _) =>
    case WorkerStep(w, action) =>
      ActMakesOnly(c.shared, w, c.workers[w], now, rec.row, action);
      PrepareMakes(c.shared, w, c.workers[w], now, rec, action);
    case _ => OutsideMakes(c.shared, now, step);
  }

  /** The notice was made with move `j`. */
  ghost predicate MadeAt(now: Time, moves: seq<Move>, id: string, j: nat, notice: Notice) {
    && j < |moves| && StepOf(moves[j], id)
    && Makes(CellAt(now, moves, id, j), VersionsAt(now, moves, id, j), moves[j].step, notice)
  }

  lemma GoodAt(now: Time, moves: seq<Move>, id: string, j: nat)
    requires now > 0 && j <= |moves|
    ensures WorldAt(now, moves, j).now > 0 && Inv(CellAt(now, moves, id, j))
    ensures forall record :: VersionsOk(RecordOf(WorldAt(now, moves, j), record))
  {
    RunIsGood(now, moves[..j]);
    EmptyIsGood();
  }

  lemma MoveMakes(now: Time, moves: seq<Move>, id: string, j: nat)
    requires now > 0 && j < |moves| && CellAt(now, moves, id, j).shared.event.notice == None
    requires CellAt(now, moves, id, j + 1).shared.event.notice.Some?
    ensures MadeAt(now, moves, id, j, CellAt(now, moves, id, j + 1).shared.event.notice.value)
  {
    GoodAt(now, moves, id, j);
    CellMoves(now, moves, id, j);
    var g, c := WorldAt(now, moves, j), CellAt(now, moves, id, j);
    StepMakes(c, RecordOf(g, c.shared.event.event.recordId), g.now, moves[j].step);
  }

  lemma NoticeStays(now: Time, moves: seq<Move>, id: string, j: nat)
    requires now > 0 && j < |moves| && CellAt(now, moves, id, j).shared.event.notice.Some?
    ensures CellAt(now, moves, id, j + 1).shared.event.notice == CellAt(now, moves, id, j).shared.event.notice
  {
    RunIsGood(now, moves[..j]);
    NextWorld(now, moves, j);
    TurnSettles(WorldAt(now, moves, j), moves[j], id);
  }

  /**
   Every notice was either handed over as it is or announces a version its record accepted: as
   cancelled, as new if it was the first, and as changed otherwise.
   */
  lemma {:induction false} EveryNoticeWasMade(now: Time, moves: seq<Move>, id: string, m: nat)
    requires now > 0 && m <= |moves| && CellAt(now, moves, id, m).shared.event.notice.Some?
    ensures exists j: nat :: j < m && MadeAt(now, moves, id, j, CellAt(now, moves, id, m).shared.event.notice.value)
    decreases m
  {
    NothingAtStart(now, moves, id);
    if CellAt(now, moves, id, m - 1).shared.event.notice.Some? {
      NoticeStays(now, moves, id, m - 1);
      EveryNoticeWasMade(now, moves, id, m - 1);
    } else {
      MoveMakes(now, moves, id, m - 1);
    }
  }

  /** A version is accepted exactly if it is new to its record, so no news is dropped and no repetition told. */
  lemma AcceptedExactly(now: Time, moves: seq<Move>, id: string, j: nat)
    requires now > 0 && j < |moves| && StepOf(moves[j], id)
    requires moves[j].step.WorkerStep? && moves[j].step.action.DoPrepare?
    requires moves[j].step.w in CellAt(now, moves, id, j).workers
    requires CellAt(now, moves, id, j).workers[moves[j].step.w].pc == AtPrepare
    requires CellAt(now, moves, id, j).shared.event.leaseOwner == moves[j].step.w
    ensures
      var record := CellAt(now, moves, id, j).shared.event.event.recordId;
      var versions := VersionsAt(now, moves, id, j);
      RecordOf(WorldAt(now, moves, j + 1), record).versions ==
        if Newer(versions, moves[j].step.action.snap) then versions + [moves[j].step.action.snap] else versions
  {
    GoodAt(now, moves, id, j);
    NextWorld(now, moves, j);
  }
}
