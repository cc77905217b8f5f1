/**
 * The external target as a value (src/effect_broker/adapters/simulated.py): what a commit does to
 * its charges, and what a truthful probe may answer.
 */
module Target {
  import opened Prelude
  import opened PyValues
  import opened Identifiers
  import opened Identity
  import opened Models

  datatype Charge = Charge(
    externalId: string,
    downstreamKey: DownstreamKey,
    requestHash: Digest,
    amount: Option<PyValue>,
    committedAt: int)

  /** Charges by external id, the ids the target still remembers for each key, and its counters. */
  datatype Target = Target(
    charges: map<string, Charge>,
    byKey: map<DownstreamKey, seq<string>>,
    nextChargeId: nat,
    dispatchCount: nat)

  const EMPTY_TARGET := Target(map[], map[], 1, 0)

  /** The value of a named argument, if the arguments are a mapping that has it. */
  function Argument(arguments: PyValue, name: string): Option<PyValue> {
    if arguments.PyDict? then LookupField(arguments.fields, name) else None
  }

  function LookupField(fields: seq<Field>, name: string): (r: Option<PyValue>)
    ensures r.Some? <==> exists i :: 0 <= i < |fields| && fields[i].key == NameKey(name)
    ensures r.Some? ==> Field(NameKey(name), r.value) in fields
  {
    if fields == [] then None
    else if fields[0].key == NameKey(name) then Some(fields[0].value)
    else
      assert fields == [fields[0]] + fields[1..];
      LookupField(fields[1..], name)
  }

  /** Safety classes whose target is asked to deduplicate by key. */
  predicate Dedupes(safety: SafetyClass) {
    safety in {Idempotent, Transactional}
  }

  function Remembered(t: Target, key: DownstreamKey): seq<string> {
    if key in t.byKey then t.byKey[key] else []
  }

  /** The first charge the target remembers under a key. */
  function FirstCharge(t: Target, key: DownstreamKey): Option<Charge> {
    var ids := Remembered(t, key);
    if ids == [] || ids[0] !in t.charges then None else Some(t.charges[ids[0]])
  }

  /** Every charge ever made under a key, remembered or not. */
  function ChargesFor(t: Target, key: DownstreamKey): set<string> {
    set x | x in t.charges && t.charges[x].downstreamKey == key
  }

  function NewCharge(t: Target, effect: Record, now: int): Charge {
    Charge(ChargeId(t.nextChargeId), effect.downstreamKey, effect.requestHash,
           Argument(effect.request.arguments, "amount"), now)
  }

  datatype CommitError = PayloadDrift

  /** One commit call: drift is refused, a deduplicating call replays, anything else charges. */
  function Commit(t: Target, effect: Record, dedupe: bool, now: int): (r: (Target, Result<Charge, CommitError>)) {
    var called := t.(dispatchCount := t.dispatchCount + 1);
    var existing := FirstCharge(t, effect.downstreamKey);
    if existing.Some? && existing.value.requestHash != effect.requestHash then (called, Err(PayloadDrift))
    else if existing.Some? && dedupe then (called, Ok(existing.value))
    else
      var charge := NewCharge(t, effect, now);
      (WithCharge(called, charge), Ok(charge))
  }

  function WithCharge(t: Target, charge: Charge): Target {
    t.(charges := t.charges[charge.externalId := charge],
       byKey := t.byKey[charge.downstreamKey := Remembered(t, charge.downstreamKey) + [charge.externalId]],
       nextChargeId := t.nextChargeId + 1)
  }

  /** The target drops what it remembered about a key; the charges stay. */
  function ForgetKey(t: Target, key: DownstreamKey): Target {
    t.(byKey := t.byKey - {key})
  }

  // ---------------------------------------------------------------- probes

  datatype Verdict = ProvenCommitted(externalId: string) | ProvenAbsent | NoProof

  /** What an authoritative answer may be: no proof, or the truth about the key. */
  ghost predicate Truthful(t: Target, effect: Record, verdict: Verdict) {
    match verdict
    case NoProof => true
    case ProvenAbsent => ChargesFor(t, effect.downstreamKey) == {}
    case ProvenCommitted(x) => x in ChargesFor(t, effect.downstreamKey)
  }

  predicate SettlementElapsed(effect: Record, now: int) {
    effect.contract.settlementBound.Some? && now >= effect.createdAt + effect.contract.settlementBound.value
  }

  /** The simulated adapter's probe. */
  function SimulatedProbe(t: Target, effect: Record, hideUntilSettled: bool, now: int): Verdict {
    if effect.contract.safety == Unsafe then NoProof
    else
      var charge := FirstCharge(t, effect.downstreamKey);
      var settled := SettlementElapsed(effect, now);
      if charge.Some? && (!hideUntilSettled || settled) then ProvenCommitted(charge.value.externalId)
      else if effect.contract.safety == Reconcilable && settled then ProvenAbsent
      else NoProof
  }

  // ---------------------------------------------------------------- well-formed targets

  /** Charge ids are minted in order, and remembered ids name charges under their key. */
  ghost predicate TargetOk(t: Target) {
    && (forall x :: x in t.charges ==> t.charges[x].externalId == x)
    && (forall x :: x in t.charges ==> exists n: nat :: n < t.nextChargeId && x == ChargeId(n))
    && (forall k :: k in t.byKey ==> t.byKey[k] != [])
    && (forall k, i :: k in t.byKey && 0 <= i < |t.byKey[k]| ==>
          t.byKey[k][i] in t.charges && t.charges[t.byKey[k][i]].downstreamKey == k)
  }

  /** The target has forgotten nothing. */
  ghost predicate RemembersAll(t: Target) {
    forall x :: x in t.charges ==> x in Remembered(t, t.charges[x].downstreamKey)
  }

  lemma FreshChargeId(t: Target)
    requires TargetOk(t)
    ensures ChargeId(t.nextChargeId) !in t.charges
  {
    if ChargeId(t.nextChargeId) in t.charges {
      var n: nat :| n < t.nextChargeId && ChargeId(t.nextChargeId) == ChargeId(n);
      ChargeIdInjective(t.nextChargeId, n);
    }
  }

  lemma ChargeKeepsTarget(t: Target, charge: Charge)
    requires TargetOk(t) && charge.externalId == ChargeId(t.nextChargeId)
    ensures TargetOk(WithCharge(t, charge))
  {
    FreshChargeId(t);
    var t' := WithCharge(t, charge);
    forall x | x in t'.charges
      ensures exists n: nat :: n < t'.nextChargeId && x == ChargeId(n)
    {
      if x == charge.externalId {
        assert t.nextChargeId < t'.nextChargeId;
      } else {
        var n: nat :| n < t.nextChargeId && x == ChargeId(n);
        assert n < t'.nextChargeId;
      }
    }
    ChargeKeepsIndex(t, charge);
  }

  lemma ChargeKeepsIndex(t: Target, charge: Charge)
    requires TargetOk(t) && charge.externalId !in t.charges
    ensures var t' := WithCharge(t, charge);
            && (forall k :: k in t'.byKey ==> t'.byKey[k] != [])
            && (forall k, i :: k in t'.byKey && 0 <= i < |t'.byKey[k]| ==>
                  t'.byKey[k][i] in t'.charges && t'.charges[t'.byKey[k][i]].downstreamKey == k)
  {
    hide ChargeId;
  }

  lemma ChargeKeepsMemory(t: Target, charge: Charge)
    requires charge.externalId !in t.charges && RemembersAll(t)
    ensures RemembersAll(WithCharge(t, charge))
  {
    var t' := WithCharge(t, charge);
    var key := charge.downstreamKey;
    forall x | x in t'.charges
      ensures x in Remembered(t', t'.charges[x].downstreamKey)
    {
      if x == charge.externalId {
        assert t'.byKey[key][|t'.byKey[key]| - 1] == x;
      } else {
        assert x in Remembered(t, t.charges[x].downstreamKey);
      }
    }
  }

  /** A commit keeps the target well formed, keeps every charge and touches no other key. */
  lemma CommitKeepsTarget(t: Target, effect: Record, dedupe: bool, now: int)
    requires TargetOk(t)
    ensures var t' := Commit(t, effect, dedupe, now).0;
            && TargetOk(t')
            && (RemembersAll(t) ==> RemembersAll(t'))
            && (forall x :: x in t.charges ==> x in t'.charges && t'.charges[x] == t.charges[x])
            && (forall k :: k != effect.downstreamKey ==> ChargesFor(t', k) == ChargesFor(t, k))
  {
    hide TargetOk, RemembersAll, ChargeId, FirstCharge, Argument;
    FreshChargeId(t);
    var called := t.(dispatchCount := t.dispatchCount + 1);
    var charge := NewCharge(t, effect, now);
    SameCoreTarget(t, called);
    var t' := Commit(t, effect, dedupe, now).0;
    if t' != called {
      assert t' == WithCharge(called, charge);
      ChargeKeepsTarget(called, charge);
      if RemembersAll(t) {
        ChargeKeepsMemory(called, charge);
      }
    }
  }

  lemma SameCoreTarget(t: Target, t': Target)
    requires t' == t.(dispatchCount := t'.dispatchCount)
    ensures TargetOk(t') <==> TargetOk(t)
    ensures RemembersAll(t') <==> RemembersAll(t)
  {
  }

  /** What a commit adds under its own key: nothing, or exactly one new charge. */
  lemma CommitCharges(t: Target, effect: Record, dedupe: bool, now: int)
    requires TargetOk(t)
    ensures var (t', r) := Commit(t, effect, dedupe, now);
            var before, after := ChargesFor(t, effect.downstreamKey), ChargesFor(t', effect.downstreamKey);
            && (r.Err? ==> t'.charges == t.charges && after == before)
            && (r.Ok? ==> r.value.externalId in after && t'.charges[r.value.externalId] == r.value)
            && (r.Ok? && after != before ==>
                  && after == before + {r.value.externalId}
                  && r.value.externalId !in before
                  && r.value == NewCharge(t, effect, now)
                  && !(dedupe && FirstCharge(t, effect.downstreamKey).Some?))
            && (before == {} && r.Ok? ==> after == {r.value.externalId})
  {
    FreshChargeId(t);
  }

  lemma CommitAdds(t: Target, effect: Record, dedupe: bool, now: int)
    ensures forall x :: x in Commit(t, effect, dedupe, now).0.charges && x !in t.charges ==>
              Commit(t, effect, dedupe, now).0.charges[x] == NewCharge(t, effect, now)
  {
    hide NewCharge, FirstCharge;
  }

  /** Both shipped probes tell the truth, provided the target forgot nothing. */
  lemma SimulatedProbeTruthful(t: Target, effect: Record, hideUntilSettled: bool, now: int)
    requires TargetOk(t) && RemembersAll(t)
    ensures Truthful(t, effect, SimulatedProbe(t, effect, hideUntilSettled, now))
  {
    var key := effect.downstreamKey;
    if FirstCharge(t, key).None? {
      forall x | x in t.charges
        ensures t.charges[x].downstreamKey != key
      {
        assert x in Remembered(t, t.charges[x].downstreamKey);
      }
    }
  }

  /** Some charge was made under the key. */
  ghost predicate Charged(t: Target, key: DownstreamKey) {
    exists x :: x in t.charges && t.charges[x].downstreamKey == key
  }

  /**
   * What the simulated probe proves, by instants: absence of a reconcilable charge from creation plus the
   * settlement bound on, never before and always then; a commit at once unless commits hide, and a hidden one
   * from that same instant on; nothing about unsafe effects.
   */
  lemma SettledProbeExact(t: Target, effect: Record, hideUntilSettled: bool, now: int)
    requires TargetOk(t) && RemembersAll(t)
    ensures var verdict, safety, bound := SimulatedProbe(t, effect, hideUntilSettled, now), effect.contract.safety, effect.contract.settlementBound;
            var settled := bound.Some? && effect.createdAt + bound.value <= now;
            && (verdict == ProvenAbsent <==> safety == Reconcilable && !Charged(t, effect.downstreamKey) && settled)
            && (verdict.ProvenCommitted? <==>
                  safety != Unsafe && Charged(t, effect.downstreamKey) && (!hideUntilSettled || settled))
            && (verdict.ProvenCommitted? ==>
                  verdict.externalId in t.charges && t.charges[verdict.externalId].downstreamKey == effect.downstreamKey)
  {
    var key := effect.downstreamKey;
    if Charged(t, key) {
      var x :| x in t.charges && t.charges[x].downstreamKey == key;
      assert x in Remembered(t, key);
    }
    if FirstCharge(t, key).Some? {
      assert Remembered(t, key)[0] in t.charges;
    }
  }
}
