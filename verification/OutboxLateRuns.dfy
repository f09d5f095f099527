/**
 Lost WhatsApp failures over whole timely runs: the exact way in, runs that take it, and what
 follows.
 */
module OutboxLateRuns {
  import opened Options
  import opened OutboxRows
  import opened OutboxMachine
  import opened OutboxSafety
  import opened OutboxFinality
  import opened OutboxWorld
  import opened OutboxLateFailure

  // ---------------------------------------------------------------- every timely run is sound

  ghost predicate CellsLate(g: World) {
    forall id :: id in g.cells ==> LateOk(g.cells[id], g.now)
  }

  lemma LateLater(c: Cell, now: Time, later: Time)
    requires LateOk(c, now) && now <= later
    ensures LateOk(c, later)
  {
  }

  lemma EmptyIsSound(now: Time)
    requires now > 0
    ensures Sound(EMPTY, now)
  {
    EmptyIsGood();
  }

  lemma TurnStaysLate(g: World, move: Move)
    requires CellsOk(g) && CellsFinal(g) && CellsLate(g) && TimelyMove(g, move)
    ensures CellsLate(Turn(g, move))
  {
    EmptyIsSound(g.now);
    if move.Pass? {
      forall id | id in g.cells ensures LateOk(g.cells[id], g.now + move.seconds) {
        LateLater(g.cells[id], g.now, g.now + move.seconds);
      }
    } else if Addressed(move.id, move.step) {
      var c := CellOf(g, move.id);
      StepStaysLate(c, RecordOf(g, c.shared.event.event.recordId).row, g.now, move.step);
      forall id | id in Turn(g, move).cells ensures LateOk(Turn(g, move).cells[id], g.now) {
        TurnCell(g, move.id, move.step, id);
      }
    }
  }

  lemma {:induction false} TimelyRunIsLate(now: Time, moves: seq<Move>)
    requires now > 0 && TimelyRun(Start(now), moves)
    ensures CellsLate(Run(Start(now), moves))
  {
    if moves != [] {
      var shorter := moves[..|moves| - 1];
      TimelyRunIsLate(now, shorter);
      RunIsGood(now, shorter);
      TimelyRunIsFinal(now, shorter);
      TurnStaysLate(Run(Start(now), shorter), moves[|moves| - 1]);
    }
  }

  lemma TimelyRunIsSound(now: Time, moves: seq<Move>, id: string)
    requires now > 0 && TimelyRun(Start(now), moves)
    ensures Sound(CellOf(Run(Start(now), moves), id), Run(Start(now), moves).now)
  {
    RunIsGood(now, moves);
    TimelyRunIsFinal(now, moves);
    TimelyRunIsLate(now, moves);
    EmptyIsSound(Run(Start(now), moves).now);
  }

  lemma {:induction false} PrefixIsTimely(now: Time, moves: seq<Move>, j: nat)
    requires TimelyRun(Start(now), moves) && j <= |moves|
    ensures TimelyRun(Start(now), moves[..j])
    decreases |moves|
  {
    if j < |moves| {
      PrefixIsTimely(now, moves[..|moves| - 1], j);
      assert moves[..|moves| - 1][..j] == moves[..j];
    } else {
      assert moves[..j] == moves;
    }
  }

  // ---------------------------------------------------------------- along a run

  /** The world, and the cell of one event, before move `j`. */
  function WorldAt(now: Time, moves: seq<Move>, j: nat): World
    requires j <= |moves|
  {
    Run(Start(now), moves[..j])
  }

  function CellAt(now: Time, moves: seq<Move>, id: string, j: nat): Cell
    requires j <= |moves|
  {
    CellOf(WorldAt(now, moves, j), id)
  }

  lemma NextWorld(now: Time, moves: seq<Move>, j: nat)
    requires j < |moves|
    ensures WorldAt(now, moves, j + 1) == Turn(WorldAt(now, moves, j), moves[j])
  {
    assert moves[..j + 1][..j] == moves[..j];
  }

  lemma SoundAt(now: Time, moves: seq<Move>, id: string, j: nat)
    requires now > 0 && TimelyRun(Start(now), moves) && j <= |moves|
    ensures Sound(CellAt(now, moves, id, j), WorldAt(now, moves, j).now)
  {
    PrefixIsTimely(now, moves, j);
    TimelyRunIsSound(now, moves[..j], id);
  }

  lemma TimelyAt(now: Time, moves: seq<Move>, j: nat)
    requires TimelyRun(Start(now), moves) && j < |moves|
    ensures TimelyMove(WorldAt(now, moves, j), moves[j])
  {
    PrefixIsTimely(now, moves, j + 1);
    assert moves[..j + 1][..j] == moves[..j] && moves[..j + 1][j] == moves[j];
  }

  /** What a move is to the cell of one event: one of its steps, or nothing. */
  lemma CellMoves(now: Time, moves: seq<Move>, id: string, j: nat)
    requires j < |moves|
    ensures
      var g, m := WorldAt(now, moves, j), moves[j];
      var c := CellAt(now, moves, id, j);
      CellAt(now, moves, id, j + 1) ==
        if m.On? && m.id == id && Addressed(id, m.step)
        then Do(c, RecordOf(g, c.shared.event.event.recordId).row, g.now, m.step).0 else c
  {
    NextWorld(now, moves, j);
    if moves[j].On? && Addressed(moves[j].id, moves[j].step) {
      TurnCell(WorldAt(now, moves, j), moves[j].id, moves[j].step, id);
    }
  }

  /** Move `j` is a step of the event. */
  predicate StepOf(move: Move, id: string) { move.On? && move.id == id && Addressed(id, move.step) }

  lemma EntersContradiction(now: Time, moves: seq<Move>, id: string, j: nat)
    requires now > 0 && TimelyRun(Start(now), moves) && j < |moves|
    requires !Contradicted(CellAt(now, moves, id, j).shared)
    ensures
      Contradicted(CellAt(now, moves, id, j + 1).shared) <==>
        StepOf(moves[j], id) && Overwrites(CellAt(now, moves, id, j), WorldAt(now, moves, j).now, moves[j].step)
  {
    SoundAt(now, moves, id, j);
    TimelyAt(now, moves, j);
    CellMoves(now, moves, id, j);
    if StepOf(moves[j], id) {
      var g, c := WorldAt(now, moves, j), CellAt(now, moves, id, j);
      ContradictedOnlyByOverwriting(c, RecordOf(g, c.shared.event.event.recordId).row, g.now, moves[j].step);
    }
  }

  lemma EntersOverwritable(now: Time, moves: seq<Move>, id: string, j: nat)
    requires now > 0 && TimelyRun(Start(now), moves) && j < |moves|
    requires !Overwritable(CellAt(now, moves, id, j), WorldAt(now, moves, j).now)
    ensures
      Overwritable(CellAt(now, moves, id, j + 1), WorldAt(now, moves, j + 1).now) <==>
        StepOf(moves[j], id) && ComesBetween(CellAt(now, moves, id, j), WorldAt(now, moves, j).now, moves[j].step)
  {
    SoundAt(now, moves, id, j);
    TimelyAt(now, moves, j);
    CellMoves(now, moves, id, j);
    NextWorld(now, moves, j);
    if StepOf(moves[j], id) {
      var g, c := WorldAt(now, moves, j), CellAt(now, moves, id, j);
      OverwritableOnlyByReceipt(c, RecordOf(g, c.shared.event.event.recordId).row, g.now, moves[j].step);
    }
  }

  /**
   The failed receipt of move `i` takes effect while the lease holder, having decided, stands before
   its finish, and that finish commits with move `k` before anything sets the matter right.
   */
  ghost predicate LosesAt(now: Time, moves: seq<Move>, id: string, i: nat, k: nat) {
    && i < k < |moves|
    && moves[i] == On(id, ReceiptStep(ReceiptFailed))
    && Finishing(CellAt(now, moves, id, i), WorldAt(now, moves, i).now) && Effective(CellAt(now, moves, id, i).shared)
    && moves[k] == On(id, WorkerStep(CellAt(now, moves, id, k).shared.event.leaseOwner, DoFinish))
    && forall j :: i < j <= k ==> Overwritable(CellAt(now, moves, id, j), WorldAt(now, moves, j).now)
  }

  ghost predicate Waits(now: Time, moves: seq<Move>, id: string, i: nat, k: nat)
    requires k <= |moves|
  {
    && i < k
    && moves[i] == On(id, ReceiptStep(ReceiptFailed))
    && Finishing(CellAt(now, moves, id, i), WorldAt(now, moves, i).now) && Effective(CellAt(now, moves, id, i).shared)
    && forall j :: i < j <= k ==> Overwritable(CellAt(now, moves, id, j), WorldAt(now, moves, j).now)
  }

  lemma WaitsLonger(now: Time, moves: seq<Move>, id: string, i: nat, k: nat)
    requires k < |moves| && Waits(now, moves, id, i, k)
    requires Overwritable(CellAt(now, moves, id, k + 1), WorldAt(now, moves, k + 1).now)
    ensures Waits(now, moves, id, i, k + 1)
  {
  }

  lemma WaitsFrom(now: Time, moves: seq<Move>, id: string, k: nat)
    requires now > 0 && TimelyRun(Start(now), moves) && k < |moves|
    requires !Overwritable(CellAt(now, moves, id, k), WorldAt(now, moves, k).now)
    requires Overwritable(CellAt(now, moves, id, k + 1), WorldAt(now, moves, k + 1).now)
    ensures Waits(now, moves, id, k, k + 1)
  {
    EntersOverwritable(now, moves, id, k);
  }

  lemma NothingAtStart(now: Time, moves: seq<Move>, id: string)
    ensures CellAt(now, moves, id, 0) == EMPTY
  {
    assert moves[..0] == [];
  }

  lemma {:induction false} OverwritableSince(now: Time, moves: seq<Move>, id: string, k: nat)
    requires now > 0 && TimelyRun(Start(now), moves) && k <= |moves|
    requires Overwritable(CellAt(now, moves, id, k), WorldAt(now, moves, k).now)
    ensures exists i: nat :: Waits(now, moves, id, i, k)
    decreases k
  {
    NothingAtStart(now, moves, id);
    if Overwritable(CellAt(now, moves, id, k - 1), WorldAt(now, moves, k - 1).now) {
      OverwritableSince(now, moves, id, k - 1);
      var i: nat :| Waits(now, moves, id, i, k - 1);
      WaitsLonger(now, moves, id, i, k - 1);
    } else {
      WaitsFrom(now, moves, id, k - 1);
    }
  }

  lemma {:induction false} ContradictedSince(now: Time, moves: seq<Move>, id: string, m: nat)
    requires now > 0 && TimelyRun(Start(now), moves) && m <= |moves|
    requires Contradicted(CellAt(now, moves, id, m).shared)
    ensures exists i: nat, k: nat :: LosesAt(now, moves, id, i, k)
    decreases m
  {
    NothingAtStart(now, moves, id);
    var k: nat := m - 1;
    if Contradicted(CellAt(now, moves, id, k).shared) {
      ContradictedSince(now, moves, id, k);
    } else {
      EntersContradiction(now, moves, id, k);
      OverwritableSince(now, moves, id, k);
      var i: nat :| Waits(now, moves, id, i, k);
      assert LosesAt(now, moves, id, i, k);
    }
  }

  /** At some point of the run the failure is lost. */
  ghost predicate FailureIsLost(now: Time, moves: seq<Move>, id: string) {
    exists m: nat :: m <= |moves| && Contradicted(CellAt(now, moves, id, m).shared)
  }

  ghost predicate ReceiptComesBetween(now: Time, moves: seq<Move>, id: string) {
    exists i: nat, k: nat :: LosesAt(now, moves, id, i, k)
  }

  lemma BetweenLoses(now: Time, moves: seq<Move>, id: string, i: nat, k: nat)
    requires now > 0 && TimelyRun(Start(now), moves) && LosesAt(now, moves, id, i, k)
    ensures Contradicted(CellAt(now, moves, id, k + 1).shared)
  {
    EntersContradiction(now, moves, id, k);
  }

  /**
   In a timely run a failure is lost exactly by a failed receipt that comes between decision and
   finish of the lease holder.
   */
  lemma FailureIsLostExactlyBetween(now: Time, moves: seq<Move>, id: string)
    requires now > 0 && TimelyRun(Start(now), moves)
    ensures FailureIsLost(now, moves, id) <==> ReceiptComesBetween(now, moves, id)
  {
    if FailureIsLost(now, moves, id) {
      var m: nat :| m <= |moves| && Contradicted(CellAt(now, moves, id, m).shared);
      ContradictedSince(now, moves, id, m);
    }
    if ReceiptComesBetween(now, moves, id) {
      var i: nat, k: nat :| LosesAt(now, moves, id, i, k);
      BetweenLoses(now, moves, id, i, k);
    }
  }

  // ---------------------------------------------------------------- what follows

  ghost predicate EndedSince(now: Time, before: seq<Move>, after: seq<Move>, id: string) {
    var g := Run(Start(now), before + after);
    && Ended(CellOf(g, id).shared) && Quiet(CellOf(g, id), g.now)
    && Same(CellOf(Run(Start(now), before), id).shared, CellOf(g, id).shared)
  }

  lemma TurnLeavesEnded(g: World, move: Move, id: string)
    requires CellsOk(g) && CellsFinal(g) && CellsLate(g) && TimelyMove(g, move)
    requires Ended(CellOf(g, id).shared) && Quiet(CellOf(g, id), g.now)
    ensures
      var h := Turn(g, move);
      && Ended(CellOf(h, id).shared) && Quiet(CellOf(h, id), h.now)
      && Same(CellOf(g, id).shared, CellOf(h, id).shared)
  {
    if move.On? && Addressed(move.id, move.step) {
      var c := CellOf(g, move.id);
      TurnCell(g, move.id, move.step, id);
      if move.id == id {
        EmptyIsSound(g.now);
        EndedStays(c, RecordOf(g, c.shared.event.event.recordId).row, g.now, move.step);
      }
    }
  }

  lemma EndedOneMore(now: Time, before: seq<Move>, after: seq<Move>, id: string)
    requires now > 0 && after != [] && TimelyRun(Start(now), before + after)
    requires EndedSince(now, before, after[..|after| - 1], id)
    ensures EndedSince(now, before, after, id)
  {
    var shorter := before + after[..|after| - 1];
    RunExtends(Start(now), before, after);
    TimelyShorter(now, before, after);
    RunIsGood(now, shorter);
    TimelyRunIsFinal(now, shorter);
    TimelyRunIsLate(now, shorter);
    TurnLeavesEnded(Run(Start(now), shorter), after[|after| - 1], id);
  }

  lemma TimelyShorter(now: Time, before: seq<Move>, after: seq<Move>)
    requires after != [] && TimelyRun(Start(now), before + after)
    ensures TimelyRun(Start(now), before + after[..|after| - 1])
    ensures TimelyMove(Run(Start(now), before + after[..|after| - 1]), after[|after| - 1])
  {
    assert (before + after)[..|before + after| - 1] == before + after[..|after| - 1];
  }

  /** A lost failure stays lost: over every timely continuation the event stays as it ended and nothing more is sent. */
  lemma {:induction false} LostFailureStays(now: Time, before: seq<Move>, after: seq<Move>, id: string)
    requires now > 0 && TimelyRun(Start(now), before + after)
    requires Contradicted(CellOf(Run(Start(now), before), id).shared)
    ensures EndedSince(now, before, after, id)
    decreases |after|
  {
    if after == [] {
      assert before + after == before;
      TimelyRunIsSound(now, before, id);
      ContradictedIsQuiet(CellOf(Run(Start(now), before), id), Run(Start(now), before).now);
    } else {
      TimelyShorter(now, before, after);
      LostFailureStays(now, before, after[..|after| - 1], id);
      EndedOneMore(now, before, after, id);
    }
  }
}
