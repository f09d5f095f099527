/**
 Proving ownership of a phone by a texted code: one challenge per chat account, one budget per
 phone, and the transactions that rewrite them.
 */
module PhoneChallenge {
  import opened Options

  const MINUTE: int := 60
  const HOUR: int := 3600
  const CODE_LIFE: int := 300
  const REQUEST_LIFE: int := 600
  const PROOF_LIFE: int := 180 * 86400
  const MAX_SENDS: nat := 5
  const MAX_ATTEMPTS: nat := 5

  /** The zero time, in seconds before 1970. */
  const ZERO: int := -62135596800

  datatype Phase = Idle | Phone | Code | Locked

  /** A keyed hash of these; taken to be injective. */
  datatype Digest = Digest(user: string, phone: string, code: string)

  datatype Challenge = Challenge(
    phase: Phase, phone: string, hash: Option<Digest>, expiresAt: int,
    nextSendAt: int, windowStarted: int, sends: nat, attempts: nat, contactMessage: string)

  const BLANK: Challenge := Challenge(Idle, "", None, ZERO, ZERO, ZERO, 0, 0, "")

  datatype Proof = Proof(phone: string, expiresAt: int)

  function Begin(v: Challenge, now: int): Challenge {
    if v.phase == Code && v.expiresAt > now then v
    else v.(phase := Phone, contactMessage := "", expiresAt := now + REQUEST_LIFE)
  }

  function Cancel(v: Challenge): Challenge { v.(phase := Idle, hash := None, contactMessage := "") }

  /** The window counter of one entry after one more code, unless it has to wait. */
  function Charge(v: Challenge, now: int): Option<Challenge> {
    if v.nextSendAt > now then None
    else
      var w := if now - v.windowStarted >= HOUR then v.(windowStarted := now, sends := 0) else v;
      if w.sends >= MAX_SENDS then None else Some(w.(sends := w.sends + 1, nextSendAt := now + MINUTE))
  }

  datatype SendResult = SendExpired | SendLimited | Sent(own: Challenge, budget: Challenge)

  function Send(own: Challenge, budget: Challenge, user: string, phone: string, code: string, now: int): SendResult {
    if own.phase != Phone || own.expiresAt <= now then SendExpired
    else match (Charge(own, now), Charge(budget, now))
      case (Some(o), Some(b)) =>
        Sent(o.(phone := phone, hash := Some(Digest(user, phone, code)), phase := Code, attempts := 0,
                expiresAt := now + CODE_LIFE), b)
      case _ => SendLimited
  }

  datatype CodeAnswer = Proves(proof: Proof) | CodeExpired | CodeLimited | CodeInvalid

  datatype ConfirmResult = ConfirmResult(own: Challenge, answer: CodeAnswer)

  function Confirm(v: Challenge, user: string, code: string, now: int): ConfirmResult {
    if v.phase != Code || v.expiresAt <= now then ConfirmResult(v, CodeExpired)
    else if v.attempts >= MAX_ATTEMPTS then ConfirmResult(v, CodeLimited)
    else
      var tried := v.(attempts := v.attempts + 1);
      if |code| == 6 && v.hash == Some(Digest(user, v.phone, code)) then
        ConfirmResult(tried.(phase := Idle, hash := None, phone := ""), Proves(Proof(v.phone, now + PROOF_LIFE)))
      else if tried.attempts >= MAX_ATTEMPTS then ConfirmResult(tried.(phase := Locked), CodeLimited)
      else ConfirmResult(tried, CodeInvalid)
  }

  datatype ContactResult = ContactExpired | ContactRepeated | ContactAccepted(own: Challenge, proof: Proof)

  function Contact(v: Challenge, proof: Option<Proof>, phone: string, message: string, now: int): ContactResult {
    if v.phase != Phone || v.expiresAt <= now then
      if message != "" && v.contactMessage == message && proof != None && proof.value.phone == phone
         && proof.value.expiresAt > now
      then ContactRepeated else ContactExpired
    else ContactAccepted(v.(phase := Idle, hash := None, contactMessage := message), Proof(phone, now + PROOF_LIFE))
  }

  // ---------------------------------------------------------------- what each transaction promises

  /** No code is charged and no attempt forgiven. */
  predicate SameCounters(v: Challenge, w: Challenge) {
    && w.nextSendAt == v.nextSendAt && w.windowStarted == v.windowStarted && w.sends == v.sends
    && w.attempts == v.attempts
  }

  /** The chat is asked for a number and has ten minutes to give one. */
  predicate AwaitsNumber(v: Challenge, now: int) { v.phase == Phone && now < v.expiresAt }

  /** A code was sent and can still be typed. */
  predicate AwaitsCode(v: Challenge, now: int) { v.phase == Code && now < v.expiresAt }

  lemma BeginAsksForNumber(v: Challenge, now: int)
    ensures AwaitsCode(v, now) ==> Begin(v, now) == v
    ensures !AwaitsCode(v, now) ==>
      var w := Begin(v, now);
      && AwaitsNumber(w, now) && w.expiresAt == now + 600 && w.contactMessage == ""
      && SameCounters(v, w) && w.phone == v.phone && w.hash == v.hash
  {
  }

  lemma CancelForgets(v: Challenge)
    ensures
      var w := Cancel(v);
      && w.phase == Idle && w.hash == None && w.contactMessage == ""
      && SameCounters(v, w) && w.phone == v.phone && w.expiresAt == v.expiresAt
  {
  }

  /** An entry pays a minute after the last code, and at most five times in the hour its window began. */
  lemma ChargedExactly(v: Challenge, now: int)
    ensures Charge(v, now) == None <==> now < v.nextSendAt || (now < v.windowStarted + 3600 && v.sends >= 5)
    ensures Charge(v, now).Some? ==>
      var w := Charge(v, now).value;
      && w.nextSendAt == now + 60
      && (if now < v.windowStarted + 3600 then w.windowStarted == v.windowStarted && w.sends == v.sends + 1
          else w.windowStarted == now && w.sends == 1)
      && w == v.(nextSendAt := w.nextSendAt, windowStarted := w.windowStarted, sends := w.sends)
  {
  }

  lemma CodeIsSentExactly(own: Challenge, budget: Challenge, user: string, phone: string, code: string, now: int)
    ensures
      var r := Send(own, budget, user, phone, code, now);
      && (r == SendExpired <==> !AwaitsNumber(own, now))
      && (r.Sent? <==> AwaitsNumber(own, now) && Charge(own, now).Some? && Charge(budget, now).Some?)
      && (r.Sent? ==>
            && AwaitsCode(r.own, now) && r.own.expiresAt == now + 300 && r.own.attempts == 0
            && r.own.phone == phone && r.own.hash == Some(Digest(user, phone, code))
            && SameCounters(r.own, Charge(own, now).value.(attempts := 0))
            && r.own.contactMessage == own.contactMessage && r.budget == Charge(budget, now).value)
  {
  }

  /**
   The right code proves the phone it was sent to, for 180 days, and is used up; the fifth wrong one locks
   the chat.
   */
  lemma CodeProvesExactly(v: Challenge, user: string, code: string, now: int)
    ensures
      var r := Confirm(v, user, code, now);
      var right := |code| == 6 && v.hash == Some(Digest(user, v.phone, code));
      && (r.answer.Proves? <==> AwaitsCode(v, now) && v.attempts < 5 && right)
      && (r.answer.CodeExpired? <==> !AwaitsCode(v, now))
      && (r.answer.CodeInvalid? <==> AwaitsCode(v, now) && v.attempts < 4 && !right)
      && (r.own.attempts == if AwaitsCode(v, now) && v.attempts < 5 then v.attempts + 1 else v.attempts)
      && (r.answer.Proves? ==> r.answer.proof == Proof(v.phone, now + 180 * 86400))
      && (r.own.phase == if r.answer.Proves? then Idle
                         else if r.answer.CodeLimited? && v.attempts == 4 then Locked else v.phase)
      && (if r.answer.Proves? then r.own.hash == None && r.own.phone == ""
          else r.own.hash == v.hash && r.own.phone == v.phone)
      && SameCounters(v, r.own.(attempts := v.attempts))
      && r.own.expiresAt == v.expiresAt && r.own.contactMessage == v.contactMessage
  {
  }

  /** A contact counts while a number is asked for; the same message again is recognised while its proof lasts. */
  lemma ContactIsAcceptedExactly(v: Challenge, proof: Option<Proof>, phone: string, message: string, now: int)
    ensures
      var r := Contact(v, proof, phone, message, now);
      && (r.ContactAccepted? <==> AwaitsNumber(v, now))
      && (r.ContactRepeated? <==>
            && !AwaitsNumber(v, now) && message != "" && v.contactMessage == message
            && proof.Some? && proof.value.phone == phone && now < proof.value.expiresAt)
      && (r.ContactAccepted? ==>
            && r.proof == Proof(phone, now + 180 * 86400)
            && r.own.phase == Idle && r.own.hash == None && r.own.contactMessage == message
            && SameCounters(v, r.own) && r.own.phone == v.phone && r.own.expiresAt == v.expiresAt)
  {
  }

  class Identity {
    var challenges: map<string, Challenge>
    var budgets: map<string, Challenge>
    var proofs: map<string, Proof>

    constructor ()
      ensures challenges == map[] && budgets == map[] && proofs == map[]
    {
      challenges, budgets, proofs := map[], map[], map[];
    }

    function Own(user: string): (v: Challenge)
      reads this
    {
      if user in challenges then challenges[user] else BLANK
    }

    function Budget(phone: string): (v: Challenge)
      reads this
    {
      if phone in budgets then budgets[phone] else BLANK
    }

    method BeginProof(user: string, now: int)
      modifies this`challenges
      ensures challenges == old(challenges)[user := Begin(old(Own(user)), now)]
    {
      var v := Own(user);
      if !(v.phase == Code && v.expiresAt > now) {
        v := v.(phase := Phone);
        v := v.(contactMessage := "");
        v := v.(expiresAt := now + REQUEST_LIFE);
      }
      challenges := challenges[user := v];
    }

    method CancelProof(user: string)
      modifies this`challenges
      ensures challenges == old(challenges)[user := Cancel(old(Own(user)))]
    {
      var v := Own(user);
      v := v.(phase := Idle);
      v := v.(hash := None);
      challenges := challenges[user := v.(contactMessage := "")];
    }

    /** Both entries are checked before either is charged; a refusal writes nothing. */
    method SendCode(user: string, phone: string, code: string, now: int) returns (r: SendResult)
      modifies this`challenges, this`budgets
      ensures r == Send(old(Own(user)), old(Budget(phone)), user, phone, code, now)
      ensures challenges == if r.Sent? then old(challenges)[user := r.own] else old(challenges)
      ensures budgets == if r.Sent? then old(budgets)[phone := r.budget] else old(budgets)
    {
      var entries := [Own(user), Budget(phone)];
      if entries[0].phase != Phone || entries[0].expiresAt <= now {
        return SendExpired;
      }
      ghost var before := entries;
      for i := 0 to 2
        invariant |entries| == 2
        invariant forall j :: i <= j < 2 ==> entries[j] == before[j]
        invariant forall j :: 0 <= j < i ==>
          && Charge(before[j], now) != None
          && Charge(before[j], now).value == entries[j].(sends := entries[j].sends + 1, nextSendAt := now + MINUTE)
      {
        var entry := entries[i];
        if entry.nextSendAt > now {
          return SendLimited;
        }
        if now - entry.windowStarted >= HOUR {
          entry := entry.(windowStarted := now);
          entry := entry.(sends := 0);
        }
        if entry.sends >= MAX_SENDS {
          return SendLimited;
        }
        entries := entries[i := entry];
      }
      for i := 0 to 2
        invariant |entries| == 2
        invariant forall j :: 0 <= j < i ==> Charge(before[j], now) == Some(entries[j])
        invariant forall j :: i <= j < 2 ==>
          && Charge(before[j], now) != None
          && Charge(before[j], now).value == entries[j].(sends := entries[j].sends + 1, nextSendAt := now + MINUTE)
      {
        var entry := entries[i].(sends := entries[i].sends + 1);
        entries := entries[i := entry.(nextSendAt := now + MINUTE)];
      }
      var own := entries[0].(phone := phone, hash := Some(Digest(user, phone, code)));
      own := own.(phase := Code, attempts := 0, expiresAt := now + CODE_LIFE);
      challenges := challenges[user := own];
      budgets := budgets[phone := entries[1]];
      return Sent(own, entries[1]);
    }

    /** A wrong code is stored as an attempt; a right one is consumed. */
    method ConfirmCode(user: string, code: string, now: int) returns (answer: CodeAnswer)
      modifies this`challenges, this`proofs
      ensures
        var r := Confirm(old(Own(user)), user, code, now);
        && challenges == old(challenges)[user := r.own] && answer == r.answer
        && proofs == if answer.Proves? then old(proofs)[user := answer.proof] else old(proofs)
    {
      var v := Own(user);
      if v.phase != Code || v.expiresAt <= now {
        answer := CodeExpired;
      } else if v.attempts >= MAX_ATTEMPTS {
        answer := CodeLimited;
      } else {
        v := v.(attempts := v.attempts + 1);
        if |code| != 6 || v.hash != Some(Digest(user, v.phone, code)) {
          answer := CodeInvalid;
          if v.attempts >= MAX_ATTEMPTS {
            v := v.(phase := Locked);
            answer := CodeLimited;
          }
        } else {
          answer := Proves(Proof(v.phone, now + PROOF_LIFE));
          proofs := proofs[user := answer.proof];
          v := v.(phase := Idle, hash := None, phone := "");
        }
      }
      challenges := challenges[user := v];
    }

    method AcceptTelegramContact(user: string, phone: string, message: string, now: int)
      returns (first: bool, expired: bool)
      modifies this`challenges, this`proofs
      ensures
        var proof := if user in old(proofs) then Some(old(proofs)[user]) else None;
        var r := Contact(old(Own(user)), proof, phone, message, now);
        && first == r.ContactAccepted? && expired == r.ContactExpired?
        && challenges == (if first then old(challenges)[user := r.own] else old(challenges))
        && proofs == (if first then old(proofs)[user := r.proof] else old(proofs))
    {
      var v := Own(user);
      first, expired := false, false;
      if v.phase != Phone || v.expiresAt <= now {
        expired := !(message != "" && v.contactMessage == message && user in proofs
                     && proofs[user].phone == phone && proofs[user].expiresAt > now);
        return;
      }
      proofs := proofs[user := Proof(phone, now + PROOF_LIFE)];
      v := v.(phase := Idle);
      v := v.(hash := None);
      challenges := challenges[user := v.(contactMessage := message)];
      first := true;
    }
  }
}
