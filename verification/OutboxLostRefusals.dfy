/**
 Refusals that become known too late, over all runs: leases may be outlived and no receipt is needed.
 */
module OutboxLostRefusals {
  import opened Options
  import opened OutboxRows
  import opened OutboxMachine
  import opened OutboxSafety
  import opened OutboxWorld
  import opened OutboxLateFailure
  import opened OutboxLateRuns

  // ---------------------------------------------------------------- single steps

  /** The lease holder finishes as if the message might have arrived. */
  predicate FinishesOver(s: Shared, w: Owner, x: Worker, action: Action) {
    action.DoFinish? && x.pc.AtFinish? && s.event.leaseOwner == w && WhatsAppOpen(x.pc.outcome)
    && RefusalKnown(s.delivery)
  }

  predicate RecordsRefusal(x: Worker, action: Action) {
    action.DoVerdict? && x.pc.AtVerdict? && x.pc.rest != [] && x.pc.rest[0] == WhatsApp && x.pc.answer == Refused
  }

  predicate EndedOpen(s: Shared) { s.event.state == Done && WhatsAppOpen(s.event.outcome) }

  predicate Loses(c: Cell, step: Step) {
    && step.WorkerStep? && step.w in c.workers
    && var x := c.workers[step.w];
       || FinishesOver(c.shared, step.w, x, step.action)
       || (RecordsRefusal(x, step.action) && EndedOpen(c.shared))
  }

  lemma ActLoses(s: Shared, w: Owner, x: Worker, now: Time, rec: Entry, action: Action)
    requires Enabled(x, action)
    requires FinishesOver(s, w, x, action) || (RecordsRefusal(x, action) && EndedOpen(s))
    ensures RefusalLost(Act(s, w, x, now, rec, action).shared)
  {
  }

  lemma ActLosesOnly(s: Shared, w: Owner, x: Worker, now: Time, rec: Entry, action: Action)
    requires Enabled(x, action) && !RefusalLost(s) && RefusalLost(Act(s, w, x, now, rec, action).shared)
    ensures FinishesOver(s, w, x, action) || (RecordsRefusal(x, action) && EndedOpen(s))
  {
  }

  lemma OutsideNeverLoses(s: Shared, now: Time, step: Step)
    requires !RefusalLost(s)
    ensures !RefusalLost(Outside(s, now, step))
  {
  }

  /** Whoever acts, within its lease or beyond. */
  lemma LostExactlyBy(c: Cell, rec: Entry, now: Time, step: Step)
    ensures Loses(c, step) ==> RefusalLost(Do(c, rec, now, step).0.shared)
    ensures !RefusalLost(c.shared) && RefusalLost(Do(c, rec, now, step).0.shared) ==> Loses(c, step)
  {
    match step
    case StartStep(_, _) =>
    case WorkerStep(w, action) =>
      if w in c.workers && Enabled(c.workers[w], action) {
        var x := c.workers[w];
        if Loses(c, step) {
          ActLoses(c.shared, w, x, now, rec, action);
        } else if !RefusalLost(c.shared) && RefusalLost(Act(c.shared, w, x, now, rec, action).shared) {
          ActLosesOnly(c.shared, w, x, now, rec, action);
        }
      }
    case _ =>
      if !RefusalLost(c.shared) {
        OutsideNeverLoses(c.shared, now, step);
      }
  }

  /** A failed receipt is stored and the row does not show it. */
  predicate Unapplied(s: Shared) {
    && s.delivery.report == ReceiptFailed && WhatsAppOpen(s.delivery.outcome)
    && (s.event.state == Prepared || EndedOpen(s))
  }

  /** A verdict, a receipt, or the fallback of a receipt that was stored before. */
  predicate Reveals(c: Cell, now: Time, step: Step) {
    match step
    case ReceiptStep(report) => report == ReceiptFailed && Effective(c.shared)
    case WorkerStep(w, action) =>
      && w in c.workers
      && var x, s := c.workers[w], c.shared;
         || RecordsRefusal(x, action)
         || (action.DoResume? && x.pc == AtResume && s.event.leaseUntil <= now && Unapplied(s))
         || (action.DoFinish? && x.pc.AtFinish? && x.pc.withDelivery && s.event.leaseOwner == w
             && WhatsAppOpen(x.pc.outcome) && s.delivery.report == ReceiptFailed
             && WhatsAppOpen(s.delivery.outcome))
    case _ => false
  }

  lemma KnownExactlyBy(c: Cell, rec: Entry, now: Time, step: Step)
    requires !RefusalKnown(c.shared.delivery)
    ensures RefusalKnown(Do(c, rec, now, step).0.shared.delivery) <==> Reveals(c, now, step)
  {
    match step
    case StartStep(_, _) =>
    case WorkerStep(w, action) =>
      if w in c.workers && Enabled(c.workers[w], action) {
        ActReveals(c, rec, now, w, action);
      }
    case _ =>
  }

  lemma ActReveals(c: Cell, rec: Entry, now: Time, w: Owner, action: Action)
    requires w in c.workers && Enabled(c.workers[w], action) && !RefusalKnown(c.shared.delivery)
    ensures
      RefusalKnown(Act(c.shared, w, c.workers[w], now, rec, action).shared.delivery) <==>
        Reveals(c, now, WorkerStep(w, action))
  {
  }

  // ---------------------------------------------------------------- over a run

  /** Worker `w` is about to finish as if the message might have arrived. */
  predicate StandsOpen(c: Cell, w: Owner) {
    w in c.workers && c.workers[w].pc.AtFinish? && WhatsAppOpen(c.workers[w].pc.outcome)
  }

  /** It decides on what its delivery row shows then. */
  lemma DecidesOnRow(c: Cell, rec: Entry, now: Time, step: Step, w: Owner)
    requires !StandsOpen(c, w) && StandsOpen(Do(c, rec, now, step).0, w)
    ensures Do(c, rec, now, step).0.shared.delivery.outcome == Do(c, rec, now, step).0.workers[w].pc.outcome
    ensures step == WorkerStep(w, DoIntent) || step == WorkerStep(w, DoVerdict)
  {
  }

  /** Decided with move `i` on an open row, and not finished before move `k`. */
  ghost predicate StandsFrom(now: Time, moves: seq<Move>, id: string, w: Owner, i: nat, k: nat)
    requires k <= |moves|
  {
    && i < k && (moves[i] == On(id, WorkerStep(w, DoIntent)) || moves[i] == On(id, WorkerStep(w, DoVerdict)))
    && WhatsAppOpen(CellAt(now, moves, id, i + 1).shared.delivery.outcome)
    && forall n :: i < n <= k ==> StandsOpen(CellAt(now, moves, id, n), w)
  }

  lemma DecidesAt(now: Time, moves: seq<Move>, id: string, w: Owner, i: nat)
    requires i < |moves|
    requires !StandsOpen(CellAt(now, moves, id, i), w) && StandsOpen(CellAt(now, moves, id, i + 1), w)
    ensures StandsFrom(now, moves, id, w, i, i + 1)
  {
    CellMoves(now, moves, id, i);
    var g, c := WorldAt(now, moves, i), CellAt(now, moves, id, i);
    DecidesOnRow(c, RecordOf(g, c.shared.event.event.recordId).row, g.now, moves[i].step, w);
  }

  lemma StandsLonger(now: Time, moves: seq<Move>, id: string, w: Owner, i: nat, k: nat)
    requires k < |moves| && StandsFrom(now, moves, id, w, i, k) && StandsOpen(CellAt(now, moves, id, k + 1), w)
    ensures StandsFrom(now, moves, id, w, i, k + 1)
  {
  }

  lemma {:induction false} StandsSince(now: Time, moves: seq<Move>, id: string, w: Owner, k: nat)
    requires k <= |moves| && StandsOpen(CellAt(now, moves, id, k), w)
    ensures exists i: nat :: StandsFrom(now, moves, id, w, i, k)
    decreases k
  {
    NothingAtStart(now, moves, id);
    if StandsOpen(CellAt(now, moves, id, k - 1), w) {
      StandsSince(now, moves, id, w, k - 1);
      var i: nat :| StandsFrom(now, moves, id, w, i, k - 1);
      StandsLonger(now, moves, id, w, i, k - 1);
    } else {
      DecidesAt(now, moves, id, w, k - 1);
    }
  }

  /** With move `j` the refusal becomes known, and it is still known before move `k`. */
  ghost predicate KnownFrom(now: Time, moves: seq<Move>, id: string, j: nat, k: nat)
    requires k <= |moves|
  {
    && j < k && StepOf(moves[j], id) && Reveals(CellAt(now, moves, id, j), WorldAt(now, moves, j).now, moves[j].step)
    && forall n :: j < n <= k ==> RefusalKnown(CellAt(now, moves, id, n).shared.delivery)
  }

  lemma BecomesKnownAt(now: Time, moves: seq<Move>, id: string, j: nat)
    requires j < |moves| && !RefusalKnown(CellAt(now, moves, id, j).shared.delivery)
    requires RefusalKnown(CellAt(now, moves, id, j + 1).shared.delivery)
    ensures KnownFrom(now, moves, id, j, j + 1)
  {
    CellMoves(now, moves, id, j);
    var g, c := WorldAt(now, moves, j), CellAt(now, moves, id, j);
    KnownExactlyBy(c, RecordOf(g, c.shared.event.event.recordId).row, g.now, moves[j].step);
  }

  lemma KnownLonger(now: Time, moves: seq<Move>, id: string, j: nat, k: nat)
    requires k < |moves| && KnownFrom(now, moves, id, j, k)
    requires RefusalKnown(CellAt(now, moves, id, k + 1).shared.delivery)
    ensures KnownFrom(now, moves, id, j, k + 1)
  {
  }

  /** A row that was not known to be refused at `a` and is at `k` became so in between. */
  lemma {:induction false} KnownSince(now: Time, moves: seq<Move>, id: string, a: nat, k: nat)
    requires a <= k <= |moves| && !RefusalKnown(CellAt(now, moves, id, a).shared.delivery)
    requires RefusalKnown(CellAt(now, moves, id, k).shared.delivery)
    ensures exists j: nat :: a <= j && KnownFrom(now, moves, id, j, k)
    decreases k
  {
    if RefusalKnown(CellAt(now, moves, id, k - 1).shared.delivery) {
      KnownSince(now, moves, id, a, k - 1);
      var j: nat :| a <= j && KnownFrom(now, moves, id, j, k - 1);
      KnownLonger(now, moves, id, j, k - 1);
    } else {
      BecomesKnownAt(now, moves, id, k - 1);
    }
  }

  /**
   Worker `w` decides with move `i`, the refusal becomes known with move `j` and is known until `w`,
   still holding the lease, finishes with move `k` on what it decided.
   */
  ghost predicate KnownTooLate(now: Time, moves: seq<Move>, id: string, w: Owner, i: nat, j: nat, k: nat) {
    && i < j < k < |moves|
    && StandsFrom(now, moves, id, w, i, k) && KnownFrom(now, moves, id, j, k)
    && moves[k] == On(id, WorkerStep(w, DoFinish)) && CellAt(now, moves, id, k).shared.event.leaseOwner == w
  }

  /** A sender records the refusal with move `k`, when the event is already over. */
  ghost predicate RecordedAfterEnd(now: Time, moves: seq<Move>, id: string, w: Owner, k: nat) {
    && k < |moves| && moves[k] == On(id, WorkerStep(w, DoVerdict)) && w in CellAt(now, moves, id, k).workers
    && RecordsRefusal(CellAt(now, moves, id, k).workers[w], DoVerdict) && EndedOpen(CellAt(now, moves, id, k).shared)
  }

  ghost predicate TooLate(now: Time, moves: seq<Move>, id: string) {
    || (exists w: Owner, i: nat, j: nat, k: nat :: KnownTooLate(now, moves, id, w, i, j, k))
    || (exists w: Owner, k: nat :: RecordedAfterEnd(now, moves, id, w, k))
  }

  ghost predicate IsLost(now: Time, moves: seq<Move>, id: string) {
    exists m: nat :: m <= |moves| && RefusalLost(CellAt(now, moves, id, m).shared)
  }

  lemma LosesWithMove(now: Time, moves: seq<Move>, id: string, k: nat)
    requires k < |moves|
    ensures
      StepOf(moves[k], id) && Loses(CellAt(now, moves, id, k), moves[k].step) ==>
        RefusalLost(CellAt(now, moves, id, k + 1).shared)
    ensures
      !RefusalLost(CellAt(now, moves, id, k).shared) && RefusalLost(CellAt(now, moves, id, k + 1).shared) ==>
        StepOf(moves[k], id) && Loses(CellAt(now, moves, id, k), moves[k].step)
  {
    CellMoves(now, moves, id, k);
    if StepOf(moves[k], id) {
      var g, c := WorldAt(now, moves, k), CellAt(now, moves, id, k);
      LostExactlyBy(c, RecordOf(g, c.shared.event.event.recordId).row, g.now, moves[k].step);
    }
  }

  /** The finish that loses a refusal was decided before the refusal became known. */
  lemma FinishCameTooLate(now: Time, moves: seq<Move>, id: string, w: Owner, k: nat)
    requires k < |moves| && moves[k] == On(id, WorkerStep(w, DoFinish)) && w in CellAt(now, moves, id, k).workers
    requires FinishesOver(CellAt(now, moves, id, k).shared, w, CellAt(now, moves, id, k).workers[w], DoFinish)
    ensures exists i: nat, j: nat :: KnownTooLate(now, moves, id, w, i, j, k)
  {
    StandsSince(now, moves, id, w, k);
    var i: nat :| StandsFrom(now, moves, id, w, i, k);
    KnownSince(now, moves, id, i + 1, k);
    var j: nat :| i + 1 <= j && KnownFrom(now, moves, id, j, k);
    assert KnownTooLate(now, moves, id, w, i, j, k);
  }

  lemma {:induction false} LostSince(now: Time, moves: seq<Move>, id: string, m: nat)
    requires m <= |moves| && RefusalLost(CellAt(now, moves, id, m).shared)
    ensures TooLate(now, moves, id)
    decreases m
  {
    NothingAtStart(now, moves, id);
    var k: nat := m - 1;
    if RefusalLost(CellAt(now, moves, id, k).shared) {
      LostSince(now, moves, id, k);
    } else {
      LosesWithMove(now, moves, id, k);
      var c, step := CellAt(now, moves, id, k), moves[k].step;
      if FinishesOver(c.shared, step.w, c.workers[step.w], step.action) {
        FinishCameTooLate(now, moves, id, step.w, k);
      } else {
        assert RecordedAfterEnd(now, moves, id, step.w, k);
      }
    }
  }

  lemma LostIsTooLate(now: Time, moves: seq<Move>, id: string)
    requires IsLost(now, moves, id)
    ensures TooLate(now, moves, id)
  {
    var m: nat :| m <= |moves| && RefusalLost(CellAt(now, moves, id, m).shared);
    LostSince(now, moves, id, m);
  }

  lemma KnownTooLateIsLost(now: Time, moves: seq<Move>, id: string, w: Owner, i: nat, j: nat, k: nat)
    requires KnownTooLate(now, moves, id, w, i, j, k)
    ensures IsLost(now, moves, id)
  {
    assert StandsOpen(CellAt(now, moves, id, k), w);
    LosesWithMove(now, moves, id, k);
  }

  lemma RecordedAfterEndIsLost(now: Time, moves: seq<Move>, id: string, w: Owner, k: nat)
    requires RecordedAfterEnd(now, moves, id, w, k)
    ensures IsLost(now, moves, id)
  {
    LosesWithMove(now, moves, id, k);
  }

  /**
   In any run a refusal is lost exactly when it becomes known too late: between decision and finish
   of the lease holder, or after the end of the event.
   */
  lemma RefusalIsLostExactlyTooLate(now: Time, moves: seq<Move>, id: string)
    ensures IsLost(now, moves, id) <==> TooLate(now, moves, id)
  {
    if IsLost(now, moves, id) {
      LostIsTooLate(now, moves, id);
    }
    if w: Owner, i: nat, j: nat, k: nat :| KnownTooLate(now, moves, id, w, i, j, k) {
      KnownTooLateIsLost(now, moves, id, w, i, j, k);
    }
    if w: Owner, k: nat :| RecordedAfterEnd(now, moves, id, w, k) {
      RecordedAfterEndIsLost(now, moves, id, w, k);
    }
  }
}
