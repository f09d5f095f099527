/**
 The shared health of a messaging channel: leased read-only probes, immediate blocks and an
 operator's hold, over whole runs.
 */
module ChannelHealth {
  import opened Options

  const PROBE_LEASE: nat := 60
  const PROBE_PACE: nat := 300
  const RECOVERY_PACE: nat := 60

  datatype Health = Health(
    known: bool, blocked: bool, proactivePaused: bool,
    templatesKnown: bool, templates: map<string, bool>, checkedAt: nat)

  /** 0 is the empty owner and the zero time. */
  datatype Row = Row(
    operatorPaused: bool, leaseOwner: nat, leaseUntil: nat, nextLookupAt: nat, health: Health, updatedAt: nat)

  const BLANK: Row := Row(false, 0, 0, 0, Health(false, false, false, false, map[], 0), 0)

  predicate Claimable(row: Row, now: nat) {
    !row.operatorPaused && row.leaseUntil <= now && row.nextLookupAt <= now
  }

  function Claim(row: Row, owner: nat, now: nat): Row {
    if Claimable(row, now) then row.(leaseOwner := owner, leaseUntil := now + PROBE_LEASE) else row
  }

  /** What staff are told about: whether anything is blocked or paused, and which templates. */
  function Fingerprint(h: Health): (bool, bool, set<string>) {
    (h.blocked, h.proactivePaused, set k | k in h.templates && !h.templates[k])
  }

  predicate Restricted(h: Health) {
    h.blocked || h.proactivePaused || exists k | k in h.templates :: !h.templates[k]
  }

  /** A probe that says nothing about templates leaves them as they were. */
  function Merged(previous: Health, probed: Health, now: nat): Health {
    var h := if probed.templatesKnown then probed
             else probed.(templates := previous.templates, templatesKnown := previous.templatesKnown);
    h.(checkedAt := now)
  }

  datatype Recorded = Recorded(row: Row, alert: bool)

  /** `began` is the instant the probe was claimed; a failed read has no health. */
  function Record(row: Row, owner: nat, began: nat, probed: Option<Health>): Recorded {
    if row.leaseOwner != owner then Recorded(row, false)
    else
      var freed := row.(leaseOwner := 0, leaseUntil := 0);
      if row.operatorPaused then Recorded(freed, false)
      else
        var paced := freed.(nextLookupAt := began + PROBE_PACE);
        if probed == None || !probed.value.known then Recorded(paced, false)
        else
          var h := Merged(row.health, probed.value, began);
          Recorded(paced.(health := h, updatedAt := began),
                   Fingerprint(row.health) != Fingerprint(h) && (row.health.known || Restricted(h)))
  }

  function Block(row: Row, now: nat): Row {
    row.(leaseOwner := 0, leaseUntil := 0, health := row.health.(known := true, blocked := true, checkedAt := now),
         updatedAt := now, nextLookupAt := now + RECOVERY_PACE)
  }

  class HealthGuard {
    var row: Row

    constructor ()
      ensures row == BLANK
    {
      row := BLANK;
    }

    method BeginProbe(owner: nat, now: nat) returns (claimed: bool)
      modifies this
      ensures row == Claim(old(row), owner, now) && claimed == Claimable(old(row), now)
    {
      claimed := false;
      if row.operatorPaused || row.leaseUntil > now || row.nextLookupAt > now {
        return;
      }
      row := row.(leaseOwner := owner);
      row := row.(leaseUntil := now + PROBE_LEASE);
      claimed := true;
    }

    method FinishProbe(owner: nat, began: nat, probed: Option<Health>) returns (alert: bool)
      modifies this
      ensures Recorded(row, alert) == Record(old(row), owner, began, probed)
    {
      alert := false;
      if row.leaseOwner != owner {
        return;
      }
      row := row.(leaseOwner := 0);
      row := row.(leaseUntil := 0);
      if row.operatorPaused {
        return;
      }
      row := row.(nextLookupAt := began + PROBE_PACE);
      if probed == None || !probed.value.known {
        return;
      }
      var previous, health := row.health, probed.value;
      if !health.templatesKnown {
        health := health.(templates := previous.templates);
        health := health.(templatesKnown := previous.templatesKnown);
      }
      health := health.(checkedAt := began);
      alert := Fingerprint(previous) != Fingerprint(health) && (previous.known || Restricted(health));
      row := row.(health := health, updatedAt := began);
    }

    method BlockChannel(now: nat)
      modifies this
      ensures row == Block(old(row), now)
    {
      row := row.(leaseOwner := 0, leaseUntil := 0);
      var health := row.health.(known := true);
      health := health.(blocked := true);
      row := row.(health := health.(checkedAt := now));
      row := row.(updatedAt := now, nextLookupAt := now + RECOVERY_PACE);
    }
  }

  // ---------------------------------------------------------------- what each transaction promises

  /** A probe is claimed for a minute while nobody holds the channel or the lease, at most every five minutes. */
  lemma ProbedExactly(row: Row, owner: nat, now: nat)
    ensures
      var r := Claim(row, owner, now);
      var free := !row.operatorPaused && row.leaseUntil <= now && row.nextLookupAt <= now;
      && (Claimable(row, now) <==> free)
      && (free ==> r.leaseOwner == owner && r.leaseUntil == now + 60)
      && r.(leaseOwner := row.leaseOwner, leaseUntil := row.leaseUntil) == row && (!free ==> r == row)
  {
  }

  /** The probe's result is stored if its lease held, nobody paused the channel meanwhile and it read something. */
  predicate Stores(row: Row, owner: nat, probed: Option<Health>) {
    row.leaseOwner == owner && !row.operatorPaused && probed.Some? && probed.value.known
  }

  /** What is stored is what was read; templates it says nothing about stay as they were. */
  lemma StoredExactly(row: Row, owner: nat, began: nat, probed: Option<Health>)
    ensures
      var r := Record(row, owner, began, probed).row;
      var h := r.health;
      && (!Stores(row, owner, probed) ==> h == row.health && r.updatedAt == row.updatedAt)
      && (Stores(row, owner, probed) ==>
            && h.known && h.blocked == probed.value.blocked && h.proactivePaused == probed.value.proactivePaused
            && h.checkedAt == began && r.updatedAt == began
            && (probed.value.templatesKnown ==> h.templatesKnown && h.templates == probed.value.templates)
            && (!probed.value.templatesKnown ==>
                  h.templatesKnown == row.health.templatesKnown && h.templates == row.health.templates))
      && r.operatorPaused == row.operatorPaused
      && (if row.leaseOwner == owner then r.leaseOwner == 0 && r.leaseUntil == 0
          else r.leaseOwner == row.leaseOwner && r.leaseUntil == row.leaseUntil)
      && r.nextLookupAt == if row.leaseOwner == owner && !row.operatorPaused then began + 300 else row.nextLookupAt
  {
  }

  predicate Unapproved(h: Health, template: string) { template in h.templates && !h.templates[template] }

  /**
   Staff are told of a change in what is blocked, paused or unapproved, and of the first reading only if
   something is.
   */
  lemma ToldExactly(row: Row, owner: nat, began: nat, probed: Option<Health>)
    ensures
      var r := Record(row, owner, began, probed);
      var was, h := row.health, r.row.health;
      r.alert <==>
        && Stores(row, owner, probed)
        && (h.blocked != was.blocked || h.proactivePaused != was.proactivePaused
            || exists k :: Unapproved(h, k) != Unapproved(was, k))
        && (was.known || h.blocked || h.proactivePaused || exists k :: Unapproved(h, k))
  {
    if Stores(row, owner, probed) {
      var was, h := row.health, Merged(row.health, probed.value, began);
      FingerprintTells(was, h);
      assert (exists k | k in h.templates :: !h.templates[k]) <==> exists k :: Unapproved(h, k) by {
        if k :| k in h.templates && !h.templates[k] {
          assert Unapproved(h, k);
        }
      }
    }
  }

  lemma FingerprintTells(was: Health, h: Health)
    ensures Fingerprint(was) != Fingerprint(h) <==>
      || h.blocked != was.blocked || h.proactivePaused != was.proactivePaused
      || exists k :: Unapproved(h, k) != Unapproved(was, k)
  {
    var a, b := Fingerprint(was).2, Fingerprint(h).2;
    assert forall k :: k in a <==> Unapproved(was, k);
    assert forall k :: k in b <==> Unapproved(h, k);
    if forall k :: Unapproved(h, k) == Unapproved(was, k) {
      assert a == b;
    }
  }

  /** A rejection blocks the channel at once, takes the lease away and has it looked at again in a minute. */
  lemma BlockedExactly(row: Row, now: nat)
    ensures
      var r := Block(row, now);
      && r.health == row.health.(known := true, blocked := true, checkedAt := now)
      && r.leaseOwner == 0 && r.leaseUntil == 0 && r.updatedAt == now && r.nextLookupAt == now + 60
      && r.operatorPaused == row.operatorPaused
  {
  }

  // ---------------------------------------------------------------- whole runs

  /** Probes in flight, with the instant each was claimed. */
  datatype System = System(row: Row, probes: map<nat, nat>)

  datatype Step =
    | Probe(w: nat, now: nat)
    | Finish(w: nat, probed: Option<Health>)
    | Reject(now: nat)
    | Hold(on: bool)

  function Do(y: System, step: Step): System {
    match step
    case Probe(w, now) =>
      if w == 0 || w in y.probes || !Claimable(y.row, now) then y
      else System(Claim(y.row, w, now), y.probes[w := now])
    case Finish(w, probed) => if w in y.probes then y.(row := Record(y.row, w, y.probes[w], probed).row) else y
    case Reject(now) => y.(row := Block(y.row, now))
    case Hold(on) => y.(row := y.row.(operatorPaused := on))
  }

  function Run(steps: seq<Step>): System
    decreases |steps|
  {
    if steps == [] then System(BLANK, map[]) else Do(Run(steps[..|steps| - 1]), steps[|steps| - 1])
  }

  /** Each step is its one transaction, and a probe remembers when it was claimed. */
  lemma StepsAreTransactions(y: System, step: Step)
    ensures
      var z := Do(y, step);
      match step
      case Probe(w, now) =>
        if w != 0 && w !in y.probes && Claimable(y.row, now)
        then z.row == Claim(y.row, w, now) && z.probes == y.probes[w := now] else z == y
      case Finish(w, probed) =>
        z.probes == y.probes && z.row == if w in y.probes then Record(y.row, w, y.probes[w], probed).row else y.row
      case Reject(now) => z.probes == y.probes && z.row == Block(y.row, now)
      case Hold(on) => z.probes == y.probes && z.row == y.row.(operatorPaused := on)
  {
  }

  lemma RunAppend(steps: seq<Step>, step: Step)
    ensures Run(steps + [step]) == Do(Run(steps), step)
  {
    assert (steps + [step])[..|steps|] == steps;
  }

  /** The run in which the channel is rejected after `before`. */
  function Rejected(before: seq<Step>, now: nat, after: seq<Step>): System { Run(before + [Reject(now)] + after) }

  lemma RejectedAppend(before: seq<Step>, now: nat, after: seq<Step>, step: Step)
    ensures Rejected(before, now, after + [step]) == Do(Rejected(before, now, after), step)
  {
    assert before + [Reject(now)] + (after + [step]) == before + [Reject(now)] + after + [step];
    RunAppend(before + [Reject(now)] + after, step);
  }

  lemma {:induction false} EmptyOwnerNeverProbes(steps: seq<Step>)
    ensures 0 !in Run(steps).probes
  {
    if steps != [] {
      EmptyOwnerNeverProbes(steps[..|steps| - 1]);
    }
  }

  lemma RejectedRun(before: seq<Step>, now: nat)
    ensures Rejected(before, now, []) == Do(Run(before), Reject(now))
  {
    assert before + [Reject(now)] + [] == before + [Reject(now)];
    RunAppend(before, Reject(now));
  }

  /** A probe is claimed once. */
  lemma StaleStays(y: System, step: Step, w: nat)
    requires w in y.probes && w != 0 && y.row.leaseOwner != w
    ensures w in Do(y, step).probes && Do(y, step).row.leaseOwner != w
  {
  }

  /** A probe that was in flight when the channel was rejected never holds the lease again. */
  lemma {:induction false} StaleProbesHoldNothing(before: seq<Step>, now: nat, after: seq<Step>, w: nat)
    requires w in Run(before).probes
    ensures w in Rejected(before, now, after).probes && Rejected(before, now, after).row.leaseOwner != w
    decreases |after|
  {
    EmptyOwnerNeverProbes(before);
    if after == [] {
      RejectedRun(before, now);
    } else {
      var init, step := after[..|after| - 1], after[|after| - 1];
      StaleProbesHoldNothing(before, now, init, w);
      assert after == init + [step];
      RejectedAppend(before, now, init, step);
      StaleStays(Rejected(before, now, init), step, w);
    }
  }

  /** Whatever it found, such a probe changes nothing. */
  lemma StaleProbeChangesNothing(before: seq<Step>, now: nat, after: seq<Step>, w: nat, probed: Option<Health>)
    requires w in Run(before).probes
    ensures Rejected(before, now, after + [Finish(w, probed)]) == Rejected(before, now, after)
  {
    StaleProbesHoldNothing(before, now, after, w);
    RejectedAppend(before, now, after, Finish(w, probed));
  }

  /** Only a rejection and a successful, undisturbed probe that holds the lease change the stored health. */
  lemma HealthChangesOnlyBy(y: System, step: Step)
    requires Do(y, step).row.health != y.row.health
    ensures step.Reject? || (
      step.Finish? && step.w in y.probes && y.row.leaseOwner == step.w && !y.row.operatorPaused
      && step.probed.Some? && step.probed.value.known)
  {
  }

  /** The step clears the block. */
  ghost predicate Clears(before: seq<Step>, now: nat, after: seq<Step>, i: nat) {
    && i < |after| && after[i].Finish?
    && after[i].w !in Run(before).probes
    && after[i].w in Rejected(before, now, after[..i]).probes
    && !Rejected(before, now, after[..i]).row.operatorPaused
    && after[i].probed.Some? && after[i].probed.value.known && !after[i].probed.value.blocked
  }

  lemma ClearsLater(before: seq<Step>, now: nat, init: seq<Step>, step: Step, i: nat)
    requires Clears(before, now, init, i)
    ensures Clears(before, now, init + [step], i)
  {
    assert (init + [step])[..i] == init[..i];
  }

  /** The step that opens a blocked channel is the finish of a later probe. */
  lemma OpeningClears(before: seq<Step>, now: nat, init: seq<Step>, step: Step)
    requires Rejected(before, now, init).row.health.blocked
    requires !Do(Rejected(before, now, init), step).row.health.blocked
    ensures Clears(before, now, init + [step], |init|)
  {
    HealthChangesOnlyBy(Rejected(before, now, init), step);
    assert (init + [step])[..|init|] == init;
    if step.Finish? && step.w in Run(before).probes {
      StaleProbesHoldNothing(before, now, init, step.w);
    }
  }

  /** A block is cleared only by the finish of a probe that was claimed after it and found the channel open. */
  lemma {:induction false} BlockIsClearedByLaterProbe(before: seq<Step>, now: nat, after: seq<Step>)
    ensures !Rejected(before, now, after).row.health.blocked ==> exists i: nat :: Clears(before, now, after, i)
    decreases |after|
  {
    if after == [] {
      RejectedRun(before, now);
    } else if !Rejected(before, now, after).row.health.blocked {
      var init, step := after[..|after| - 1], after[|after| - 1];
      assert after == init + [step];
      RejectedAppend(before, now, init, step);
      if !Rejected(before, now, init).row.health.blocked {
        BlockIsClearedByLaterProbe(before, now, init);
        var i: nat :| Clears(before, now, init, i);
        ClearsLater(before, now, init, step, i);
      } else {
        OpeningClears(before, now, init, step);
      }
    }
  }
}
