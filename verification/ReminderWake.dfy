/**
 When a reminder task wakes next.  The task queue takes tasks at most thirty days ahead, so a
 distant reminder wakes at checkpoints 29 days apart, counted from its creation.
 */
module ReminderWake {

  /** Nanoseconds. */
  const STEP: int := 29 * 24 * 3600 * 1000000000

  function Checkpoint(created: int, k: nat): int { created + k * STEP }

  /** The number of the first checkpoint after `now`, counting from 1. */
  function NextIndex(created: int, now: int): (k: nat)
    ensures k >= 1 && now < Checkpoint(created, k)
    ensures k == 1 || Checkpoint(created, k - 1) <= now
  {
    if now < created then 1 else (now - created) / STEP + 1
  }

  function Min(a: int, b: int): int { if a <= b then a else b }

  predicate Near(due: int, now: int) { due <= now + STEP }

  function WakeAt(created: int, due: int, now: int): int {
    if Near(due, now) then due else Min(due, Checkpoint(created, NextIndex(created, now)))
  }

  method ScheduleWake(created: int, due: int, now: int) returns (runAt: int)
    ensures runAt == WakeAt(created, due, now)
  {
    runAt := due;
    if runAt > now + STEP {
      runAt := created + STEP;
      ghost var k := 1;
      while runAt <= now && runAt < due
        invariant k >= 1 && runAt == Checkpoint(created, k)
        invariant k <= NextIndex(created, now)
        decreases now - runAt
      {
        EarlierCheckpoint(created, now, k);
        runAt := runAt + STEP;
        k := k + 1;
      }
      NextIsThis(created, now, k);
      if runAt > due {
        runAt := due;
      }
    }
  }

  lemma EarlierCheckpoint(created: int, now: int, k: nat)
    requires k >= 1 && Checkpoint(created, k) <= now
    ensures k < NextIndex(created, now)
  {
  }

  lemma NextIsThis(created: int, now: int, k: nat)
    requires 1 <= k <= NextIndex(created, now) && now < Checkpoint(created, k)
    ensures k == NextIndex(created, now)
  {
  }

  /** A reminder that is not due yet wakes later than now, not after it is due, and at the first checkpoint ahead. */
  lemma WakesAhead(created: int, due: int, now: int)
    requires now < due
    ensures now < WakeAt(created, due, now) <= due
    ensures !Near(due, now) ==>
      forall k: nat :: k >= 1 && now < Checkpoint(created, k) ==> WakeAt(created, due, now) <= Checkpoint(created, k)
  {
    if !Near(due, now) {
      forall k: nat | k >= 1 && now < Checkpoint(created, k) ensures NextIndex(created, now) <= k {
        if k < NextIndex(created, now) {
          NextIsThis(created, now, k);
        }
      }
    }
  }

  /** The queue's horizon is kept exactly when the clock is not behind the creation time, or the reminder is near. */
  lemma WithinHorizon(created: int, due: int, now: int)
    requires now < due
    ensures WakeAt(created, due, now) <= now + STEP <==> created <= now || Near(due, now)
  {
    if !Near(due, now) && created <= now {
      assert Checkpoint(created, NextIndex(created, now) - 1) <= now;
    }
  }

  /** Checkpoints are 29 days apart, a day less than the queue allows. */
  lemma CheckpointsAreDays(created: int, due: int, now: int, k: nat)
    ensures Checkpoint(created, k) == created + k * (29 * 24 * 3600 * 1000000000)
    ensures Near(due, now) <==> due - now <= 29 * 24 * 3600 * 1000000000
  {
  }

  /** Retries between two checkpoints ask for the same task. */
  lemma SameTaskBetweenCheckpoints(created: int, due: int, k: nat, now: int, again: int)
    requires Checkpoint(created, k) <= now < Checkpoint(created, k + 1)
    requires Checkpoint(created, k) <= again < Checkpoint(created, k + 1)
    requires !Near(due, now) && !Near(due, again)
    ensures WakeAt(created, due, now) == WakeAt(created, due, again)
  {
    NextIsThis(created, now, NextIndex(created, again));
  }

  // ---------------------------------------------------------------- the chain of wakes

  /** When the `n`-th task runs if each runs `late[i]` after it was due to. */
  function Wake(created: int, due: int, planned: int, late: seq<nat>): int
    decreases |late|
  {
    if late == [] then planned
    else WakeAt(created, due, Wake(created, due, planned, late[..|late| - 1])) + late[|late| - 1]
  }

  /** The most wakes a reminder needs. */
  function Bound(created: int, due: int): int { (due - created - 1) / STEP + 1 }

  lemma {:induction false} EarlyWakesClimb(created: int, due: int, planned: int, late: seq<nat>)
    requires created <= planned < due
    requires Wake(created, due, planned, late) < due
    ensures Checkpoint(created, |late|) <= Wake(created, due, planned, late)
    decreases |late|
  {
    if late != [] {
      var before := Wake(created, due, planned, late[..|late| - 1]);
      if before < due {
        EarlyWakesClimb(created, due, planned, late[..|late| - 1]);
        if NextIndex(created, before) < |late| {
          NextIsThis(created, before, NextIndex(created, before));
          CheckpointsGrow(created, NextIndex(created, before), |late| - 1);
        }
        CheckpointsGrow(created, |late|, NextIndex(created, before));
      }
    }
  }

  lemma CheckpointsGrow(created: int, j: nat, k: nat)
    ensures j <= k ==> Checkpoint(created, j) <= Checkpoint(created, k)
  {
  }

  /** However late the tasks run, the reminder is reached after at most `Bound` wakes. */
  lemma ChainReachesDue(created: int, due: int, planned: int, late: seq<nat>)
    requires created <= planned < due && |late| >= Bound(created, due)
    ensures Wake(created, due, planned, late) >= due
  {
    if Wake(created, due, planned, late) < due {
      EarlyWakesClimb(created, due, planned, late);
    }
  }

  ghost predicate Punctual(late: seq<nat>) { forall i :: 0 <= i < |late| ==> late[i] == 0 }

  lemma AtCheckpoint(created: int, k: nat)
    ensures NextIndex(created, Checkpoint(created, k)) == k + 1
  {
  }

  /** A punctual chain needs all of them. */
  lemma {:induction false} PunctualChain(created: int, due: int, late: seq<nat>)
    requires created < due && Punctual(late) && |late| < Bound(created, due)
    ensures Wake(created, due, created, late) == Checkpoint(created, |late|) < due
    decreases |late|
  {
    if late != [] {
      PunctualChain(created, due, late[..|late| - 1]);
      AtCheckpoint(created, |late| - 1);
    }
  }
}
