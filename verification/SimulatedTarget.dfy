/**
 * The simulated target and its adapter (src/effect_broker/adapters/simulated.py), updated in place
 * and proved against the target as a value. Its adapter never says anything untrue.
 */
module SimulatedTarget {
  import opened Prelude
  import opened Identifiers
  import opened Identity
  import opened PyValues
  import opened Models
  import opened Target
  import Spec = Target
  import opened Protocol

  class SimulatedTarget {
    var charges: map<string, Charge>
    var byKey: map<DownstreamKey, seq<string>>
    var nextChargeId: nat
    var loseNextResponse: bool
    var hideUntilSettled: bool
    var now: int
    var dispatchCount: nat

    function Value(): Target
      reads this
    {
      Target(charges, byKey, nextChargeId, dispatchCount)
    }

    /** Well formed, and nothing is ever forgotten. */
    ghost predicate Valid()
      reads this
    {
      TargetOk(Value()) && RemembersAll(Value())
    }

    constructor (now: int)
      ensures Valid() && Value() == EMPTY_TARGET && this.now == now
      ensures !loseNextResponse && !hideUntilSettled
    {
      charges, byKey, nextChargeId, dispatchCount := map[], map[], 1, 0;
      loseNextResponse, hideUntilSettled := false, false;
      this.now := now;
    }

    method LoseNextResponse()
      modifies this`loseNextResponse
      ensures loseNextResponse
    {
      loseNextResponse := true;
    }

    method SetNow(now: int)
      modifies this`now
      ensures this.now == now
    {
      this.now := now;
    }

    method FirstByDownstreamKey(key: DownstreamKey) returns (r: Option<Charge>)
      requires Valid()
      ensures r == FirstCharge(Value(), key)
      ensures r.Some? <==> exists x :: x in charges && charges[x].downstreamKey == key
      ensures r.Some? ==> r.value.downstreamKey == key && r.value.externalId in charges && charges[r.value.externalId] == r.value
    {
      FirstIsCharge(Value(), key);
      if key !in byKey {
        return None;
      }
      var ids := byKey[key];
      r := Some(charges[ids[0]]);
    }

    /** Counts the call, refuses drift, replays for a deduplicating caller, charges otherwise. */
    method Commit(effect: Record, dedupe: bool) returns (r: Result<Charge, CommitError>)
      requires Valid()
      modifies this`charges, this`byKey, this`nextChargeId, this`dispatchCount
      ensures Valid()
      ensures (Value(), r) == Spec.Commit(old(Value()), effect, dedupe, now)
      ensures dispatchCount == old(dispatchCount) + 1
      ensures r.Err? ==> && charges == old(charges)
                         && exists x :: x in charges && charges[x].downstreamKey == effect.downstreamKey && charges[x].requestHash != effect.requestHash
      ensures r.Ok? && !dedupe ==> charges != old(charges)
      ensures r.Ok? ==> r.value.externalId in charges && charges[r.value.externalId] == r.value && r.value.downstreamKey == effect.downstreamKey
      ensures r.Ok? && charges != old(charges) ==>
                && r.value.externalId !in old(charges) && charges == old(charges)[r.value.externalId := r.value]
                && r.value.requestHash == effect.requestHash && r.value.committedAt == now
                && ChargesAmount(r.value, effect)
      ensures dedupe && (exists x :: x in old(charges) && old(charges)[x].downstreamKey == effect.downstreamKey) ==> charges == old(charges)
    {
      hide TargetOk, RemembersAll, Argument, ChargesAmount;
      CommitInFields(Value(), effect, dedupe, now);
      CommitKeepsTarget(Value(), effect, dedupe, now);
      var existing := FirstByDownstreamKey(effect.downstreamKey);
      dispatchCount := dispatchCount + 1;
      if existing.Some? {
        if existing.value.requestHash != effect.requestHash {
          return Err(PayloadDrift);
        }
        if dedupe {
          return Ok(existing.value);
        }
      }
      var externalId := ChargeId(nextChargeId);
      nextChargeId := nextChargeId + 1;
      var charge := Charge(externalId, effect.downstreamKey, effect.requestHash,
                           Argument(effect.request.arguments, "amount"), now);
      charges := charges[externalId := charge];
      byKey := byKey[effect.downstreamKey :=
        (if effect.downstreamKey in byKey then byKey[effect.downstreamKey] else []) + [externalId]];
      r := Ok(charge);
    }

    /** The listed charges are exactly the charges under the key. */
    method ChargesForKey(key: DownstreamKey) returns (listed: seq<Charge>)
      requires Valid()
      ensures forall x :: x in ChargesFor(Value(), key) ==> x in charges
      ensures forall c :: c in listed <==> c.externalId in ChargesFor(Value(), key) && charges[c.externalId] == c
    {
      hide TargetOk, RemembersAll, ChargesFor;
      listed := [];
      var ids := if key in byKey then byKey[key] else [];
      RememberedAreCharges(Value(), key);
      for i := 0 to |ids|
        invariant |listed| == i
        invariant forall j :: 0 <= j < i ==> listed[j] == charges[ids[j]]
      {
        listed := listed + [charges[ids[i]]];
      }
      ListedAreCharges(Value(), key, ids, listed);
    }
  }

  /** The charged amount is the request's: the value of its argument named amount, if it has one. */
  ghost predicate ChargesAmount(charge: Charge, effect: Record) {
    var arguments := effect.request.arguments;
    && (charge.amount.Some? <==> arguments.PyDict? && exists i :: 0 <= i < |arguments.fields| && arguments.fields[i].key == NameKey("amount"))
    && (charge.amount.Some? ==> Field(NameKey("amount"), charge.amount.value) in arguments.fields)
  }

  lemma FirstIsCharge(t: Target, key: DownstreamKey)
    requires TargetOk(t) && RemembersAll(t)
    ensures var r := FirstCharge(t, key);
            && (r.Some? <==> exists x :: x in t.charges && t.charges[x].downstreamKey == key)
            && (r.Some? ==> r.value.downstreamKey == key && r.value.externalId in t.charges && t.charges[r.value.externalId] == r.value)
  {
    if x :| x in t.charges && t.charges[x].downstreamKey == key {
      assert x in Remembered(t, key);
    }
  }

  lemma CommitInFields(t: Target, effect: Record, dedupe: bool, now: int)
    requires TargetOk(t) && RemembersAll(t)
    ensures var (t', r) := Spec.Commit(t, effect, dedupe, now);
            && (r.Err? ==> && t'.charges == t.charges
                           && exists x :: x in t.charges && t.charges[x].downstreamKey == effect.downstreamKey
                                          && t.charges[x].requestHash != effect.requestHash)
            && (r.Ok? && !dedupe ==> t'.charges != t.charges)
            && (r.Ok? ==> r.value.externalId in t'.charges && t'.charges[r.value.externalId] == r.value
                          && r.value.downstreamKey == effect.downstreamKey)
            && (r.Ok? && t'.charges != t.charges ==>
                  && r.value.externalId !in t.charges && t'.charges == t.charges[r.value.externalId := r.value]
                  && r.value.requestHash == effect.requestHash && r.value.committedAt == now
                  && ChargesAmount(r.value, effect))
            && (dedupe && (exists x :: x in t.charges && t.charges[x].downstreamKey == effect.downstreamKey) ==> t'.charges == t.charges)
  {
    hide TargetOk, RemembersAll, FirstCharge, ChargeId;
    FreshChargeId(t);
    FirstIsCharge(t, effect.downstreamKey);
  }

  /** A target that forgets nothing remembers exactly its charges, under their own ids. */
  lemma RememberedAreCharges(t: Target, key: DownstreamKey)
    requires TargetOk(t) && RemembersAll(t)
    ensures forall x :: x in Remembered(t, key) <==> x in ChargesFor(t, key)
    ensures forall x :: x in Remembered(t, key) ==> x in t.charges && t.charges[x].externalId == x
  {
    forall x | x in Remembered(t, key)
      ensures x in ChargesFor(t, key)
    {
      var i :| 0 <= i < |Remembered(t, key)| && Remembered(t, key)[i] == x;
    }
  }

  lemma ListedAreCharges(t: Target, key: DownstreamKey, ids: seq<string>, listed: seq<Charge>)
    requires TargetOk(t) && RemembersAll(t) && ids == Remembered(t, key) && |listed| == |ids|
    requires forall j :: 0 <= j < |ids| ==> ids[j] in t.charges && listed[j] == t.charges[ids[j]]
    ensures forall x :: x in ChargesFor(t, key) ==> x in t.charges
    ensures forall c :: c in listed <==> c.externalId in ChargesFor(t, key) && t.charges[c.externalId] == c
  {
    hide TargetOk, RemembersAll, Remembered;
    RememberedAreCharges(t, key);
    forall c
      ensures c in listed <==> c.externalId in ChargesFor(t, key) && t.charges[c.externalId] == c
    {
      if c in listed {
        var j :| 0 <= j < |listed| && listed[j] == c;
        assert ids[j] in Remembered(t, key);
      }
      if c.externalId in ChargesFor(t, key) && t.charges[c.externalId] == c {
        assert c.externalId in ids;
        var j :| 0 <= j < |ids| && ids[j] == c.externalId;
        assert listed[j] == c;
      }
    }
  }

  class SimulatedAdapter {
    const target: SimulatedTarget

    constructor (target: SimulatedTarget)
      ensures this.target == target
    {
      this.target := target;
    }

    /** What the next dispatch will look like from outside. */
    function NextDelivery(): Delivery
      reads target
    {
      Land(if target.loseNextResponse then Silent("AmbiguousDispatchError") else Answered)
    }

    /** A dispatch commits first and may then lose the response; a drift rejection keeps the switch. */
    method Dispatch(effect: Record, attemptId: string) returns (answer: Answer)
      requires target.Valid()
      modifies target`charges, target`byKey, target`nextChargeId, target`dispatchCount, target`loseNextResponse
      ensures target.Valid()
      ensures var (after, r) := Spec.Commit(old(target.Value()), effect, Dedupes(effect.contract.safety), target.now);
              && target.Value() == after
              && answer == (if r.Err? then Rejected("AdapterError")
                            else AnswerTo(old(NextDelivery()).reply, r.value.externalId))
              && target.loseNextResponse == (old(target.loseNextResponse) && r.Err?)
      ensures answer.Rejected? ==> target.charges == old(target.charges)
      ensures old(target.loseNextResponse) ==> answer.Ambiguous? || answer.Rejected?
      ensures !old(target.loseNextResponse) ==> answer.Confirmed? || answer.Rejected?
      ensures !answer.Rejected? ==>
                exists x :: x in target.charges && target.charges[x].downstreamKey == effect.downstreamKey
                            && (answer.Confirmed? ==> answer.externalId == x)
      ensures effect.contract.safety in {Idempotent, Transactional}
              && (exists x :: x in old(target.charges) && old(target.charges)[x].downstreamKey == effect.downstreamKey) ==>
                target.charges == old(target.charges)
    {
      hide ChargesAmount, TargetOk, RemembersAll;
      var r := target.Commit(effect, Dedupes(effect.contract.safety));
      if r.Err? {
        return Rejected("AdapterError");
      }
      if target.loseNextResponse {
        target.loseNextResponse := false;
        return Ambiguous("AmbiguousDispatchError");
      }
      answer := Confirmed(r.value.externalId);
    }

    method SettlementElapsed(effect: Record) returns (elapsed: bool)
      ensures elapsed == Spec.SettlementElapsed(effect, target.now)
      ensures elapsed <==> effect.contract.settlementBound.Some? && effect.createdAt + effect.contract.settlementBound.value <= target.now
    {
      if effect.contract.settlementBound.None? {
        return false;
      }
      elapsed := target.now >= effect.createdAt + effect.contract.settlementBound.value;
    }

    /** Authoritative: a verdict is no proof, or the truth about the key. */
    method Probe(effect: Record) returns (verdict: Verdict)
      requires target.Valid()
      ensures verdict == SimulatedProbe(target.Value(), effect, target.hideUntilSettled, target.now)
      ensures Truthful(target.Value(), effect, verdict)
      ensures var bound, safety := effect.contract.settlementBound, effect.contract.safety;
              var settled := bound.Some? && effect.createdAt + bound.value <= target.now;
              var charged := exists x :: x in target.charges && target.charges[x].downstreamKey == effect.downstreamKey;
              && (verdict == ProvenAbsent <==> safety == Reconcilable && !charged && settled)
              && (verdict.ProvenCommitted? <==> safety != Unsafe && charged && (!target.hideUntilSettled || settled))
              && (verdict.ProvenCommitted? ==>
                    verdict.externalId in target.charges && target.charges[verdict.externalId].downstreamKey == effect.downstreamKey)
    {
      SettledProbeExact(target.Value(), effect, target.hideUntilSettled, target.now);
      SimulatedProbeTruthful(target.Value(), effect, target.hideUntilSettled, target.now);
      if effect.contract.safety == Unsafe {
        return NoProof;
      }
      var charge := target.FirstByDownstreamKey(effect.downstreamKey);
      var settled := SettlementElapsed(effect);
      if charge.Some? && (!target.hideUntilSettled || settled) {
        return ProvenCommitted(charge.value.externalId);
      }
      if effect.contract.safety == Reconcilable && settled {
        return ProvenAbsent;
      }
      verdict := NoProof;
    }
  }
}
