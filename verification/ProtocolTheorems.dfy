/** The safety theorems over whole runs, each with the hypotheses on the environment it needs. */
module ProtocolTheorems {
  import opened Prelude
  import opened Json
  import Identifiers
  import opened Identity
  import opened Models
  import opened StateMachine
  import opened Ledger
  import opened LedgerProofs
  import opened Target
  import opened Protocol
  import opened ProtocolInvariant
  import opened ProtocolSteps
  import opened ProtocolCalls
  import opened ProtocolTarget
  import opened ProtocolRuns
  import opened ProtocolOnce

  // ---------------------------------------------------------------- at most one charge

  lemma {:induction false} RunOnce(s: System, run: seq<Label>, all: bool)
    requires Sound(s) && Fenced(s) && Clean(s, all)
    requires Throughout(OwnerGone, s, run) && (all ==> Throughout(ProvenNonCommit, s, run))
    ensures Sound(After(s, run)) && Fenced(After(s, run)) && Clean(After(s, run), all)
  {
    hide Sound, Fenced, Clean, Next, OwnerGone, ProvenNonCommit;
    if run == [] {
    } else {
      var before := After(s, run[..|run| - 1]);
      RunOnce(s, run[..|run| - 1], all);
      NextSound(before, run[|run| - 1]);
      NextKeepsOnce(before, run[|run| - 1], all);
    }
  }

  lemma {:induction false} RunDeduped(s: System, run: seq<Label>)
    requires Sound(s) && DedupedOnce(s) && Throughout(NeverForgets, s, run)
    ensures Sound(After(s, run)) && DedupedOnce(After(s, run))
  {
    hide Inv, CallsOk, TargetInv, ChargedByCalls, DedupedOnce, Next, NeverForgets;
    if run == [] {
    } else {
      var before := After(s, run[..|run| - 1]);
      RunDeduped(s, run[..|run| - 1]);
      NextSound(before, run[|run| - 1]);
      NextKeepsDeduped(before, run[|run| - 1]);
    }
  }

  lemma StartDeduped(secret: string, now: int)
    ensures DedupedOnce(Start(secret, now))
  {
  }

  /** Fencing alone bounds every class but the idempotent one, whatever the target remembers. */
  lemma OnceByFencing(secret: string, now: int, run: seq<Label>, id: string)
    requires Throughout(OwnerGone, Start(secret, now), run)
    requires id in After(Start(secret, now), run).ledger.entries
    requires Current(After(Start(secret, now), run), id).contract.safety != Idempotent
    ensures |Charges(After(Start(secret, now), run), id)| <= 1
  {
    hide After, Sound, Fenced, ActorClean, Charges;
    StartSound(secret, now);
    StartClean(secret, now, false);
    RunOnce(Start(secret, now), run, false);
    assert EffectClean(After(Start(secret, now), run), id, false);
  }

  /** Charges never disappear. */
  lemma ChargesGrow(s: System, s': System, k: Kind, id: string)
    requires Inv(s) && TargetInv(s) && Is(s, s', k) && id in s.ledger.entries
    ensures id in s'.ledger.entries && Charges(s, id) <= Charges(s', id)
  {
    hide Inv, TargetInv, Is;
    KindGrows(s, s', k);
    KeyKept(s, s', id);
    if k.Called? {
      TargetOkFact(s);
      CalledCharges(s, s', k);
    }
  }

  lemma {:induction false} ChargesKept(s: System, run: seq<Label>, id: string)
    requires Sound(s) && id in s.ledger.entries
    ensures id in After(s, run).ledger.entries && Charges(s, id) <= Charges(After(s, run), id)
  {
    hide Inv, CallsOk, TargetInv, ChargedByCalls, Next, Is, Charges;
    if run == [] {
    } else {
      var before := After(s, run[..|run| - 1]);
      ChargesKept(s, run[..|run| - 1], id);
      RunSound(s, run[..|run| - 1]);
      var k := Classify(before, run[|run| - 1]);
      ChargesGrow(before, Next(before, run[|run| - 1]), k, id);
    }
  }

  predicate ConfirmedFor(p: Actor, id: string) {
    p.Reporting? && p.answer.Confirmed? && p.rec.effectId == id
  }

  /** After the first i steps of the run, an actor holds a confirmation for an effect. */
  ghost predicate ConfirmedAt(s: System, run: seq<Label>, i: nat, a: nat, id: string) {
    i <= |run| && ConfirmedFor(Pc(After(s, run[..i]), a), id)
  }

  lemma ConfirmedIsCharge(s: System, a: nat, id: string)
    requires Sound(s) && ConfirmedFor(Pc(s, a), id)
    ensures id in s.ledger.entries && Pc(s, a).answer.externalId in Charges(s, id)
  {
    hide CallsOk, ChargedByCalls, LedgerOk, UniqueOwners, TargetOk, HasHome;
    assert ActorOk(s.ledger, s.actors[a]);
    assert AnswerOk(s.target, s.actors[a]);
  }

  /** A confirmation held at any time names a charge that is there at the end. */
  lemma ConfirmedLasts(s: System, run: seq<Label>, i: nat, a: nat, id: string)
    requires Sound(s) && ConfirmedAt(s, run, i, a, id)
    ensures id in After(s, run).ledger.entries
    ensures Pc(After(s, run[..i]), a).answer.externalId in Charges(After(s, run), id)
  {
    hide Sound, After, Charges, Pc, ConfirmedFor;
    RunSound(s, run[..i]);
    ConfirmedIsCharge(After(s, run[..i]), a, id);
    ChargesKept(After(s, run[..i]), run[i..], id);
    AfterConcat(s, run[..i], run[i..]);
    assert run[..i] + run[i..] == run;
  }

  /**
   * Deduplication alone bounds idempotent and transactional effects, however many redispatches and
   * zombie calls interleave: one charge, and one external id in every confirmation given at any time of
   * the run, whether it was recorded, lost to a fence or is still held.
   */
  lemma OnceByDeduplication(secret: string, now: int, run: seq<Label>, id: string)
    requires Throughout(NeverForgets, Start(secret, now), run)
    requires id in After(Start(secret, now), run).ledger.entries
    requires Current(After(Start(secret, now), run), id).contract.safety in {Idempotent, Transactional}
    ensures |Charges(After(Start(secret, now), run), id)| <= 1
    ensures var s := Start(secret, now);
            forall i: nat, j: nat, a: nat, b: nat :: ConfirmedAt(s, run, i, a, id) && ConfirmedAt(s, run, j, b, id) ==>
              Pc(After(s, run[..i]), a).answer == Pc(After(s, run[..j]), b).answer
  {
    hide After, Inv, TargetInv, CallsOk, ChargedByCalls, Charges, RemembersAll, Pc;
    var s := Start(secret, now);
    StartSound(secret, now);
    StartDeduped(secret, now);
    RunDeduped(s, run);
    forall i: nat, j: nat, a: nat, b: nat | ConfirmedAt(s, run, i, a, id) && ConfirmedAt(s, run, j, b, id)
      ensures Pc(After(s, run[..i]), a).answer == Pc(After(s, run[..j]), b).answer
    {
      ConfirmedLasts(s, run, i, a, id);
      ConfirmedLasts(s, run, j, b, id);
      SingletonMembers(Charges(After(s, run), id), Pc(After(s, run[..i]), a).answer.externalId,
                       Pc(After(s, run[..j]), b).answer.externalId);
    }
  }

  /** Nor does the target ever see drift: all calls under one key carry one pinned request hash. */
  lemma NeverDrifts(secret: string, now: int, run: seq<Label>, a: nat)
    requires Pc(After(Start(secret, now), run), a).Calling?
    ensures var s := After(Start(secret, now), run);
            Commit(s.target, Pc(s, a).rec, Pc(s, a).rec.contract.safety in {Idempotent, Transactional}, s.clock).1.Ok?
  {
    hide After, Inv, TargetInv, CallsOk, ChargedByCalls, Commit;
    StartSound(secret, now);
    RunSound(Start(secret, now), run);
    NoDrift(After(Start(secret, now), run), a);
  }

  /** Both hypotheses together: no effect of any class is ever charged twice. */
  lemma AtMostOneCharge(secret: string, now: int, run: seq<Label>, id: string)
    requires Throughout(OwnerGone, Start(secret, now), run)
    requires Throughout(NeverForgets, Start(secret, now), run)
    requires id in After(Start(secret, now), run).ledger.entries
    ensures |Charges(After(Start(secret, now), run), id)| <= 1
  {
    hide After, Charges, Throughout;
    if Current(After(Start(secret, now), run), id).contract.safety == Idempotent {
      OnceByDeduplication(secret, now, run, id);
    } else {
      OnceByFencing(secret, now, run, id);
    }
  }

  // ---------------------------------------------------------------- targets that forget keys

  /** A key is remembered for as long as its retention runs from the charge. */
  ghost predicate StillRemembered(s: System, id: string, x: string)
    requires id in s.ledger.entries && x in s.target.charges
  {
    var retention := Current(s, id).contract.keyRetention;
    retention.Some? && s.clock <= s.target.charges[x].committedAt + retention.value ==>
      x in Remembered(s.target, KeyOf(s, id))
  }

  ghost predicate RetainedEffect(s: System, id: string)
    requires id in s.ledger.entries
  {
    Current(s, id).contract.safety == Idempotent ==>
      && |Charges(s, id)| <= 1
      && forall x :: x in Charges(s, id) ==> StillRemembered(s, id, x)
  }

  ghost predicate Retained(s: System) {
    forall id :: id in s.ledger.entries ==> RetainedEffect(s, id)
  }

  /** A commit forgets nothing, and remembers the charge it answers with. */
  lemma CommitRemembers(t: Target, effect: Record, dedupe: bool, now: int)
    requires TargetOk(t)
    ensures var (t', r) := Commit(t, effect, dedupe, now);
            && (forall key, x :: x in Remembered(t, key) ==> x in Remembered(t', key))
            && (r.Ok? ==> r.value.externalId in Remembered(t', effect.downstreamKey))
  {
    hide Identifiers.ChargeId, Argument;
    var (t', r) := Commit(t, effect, dedupe, now);
    if r.Ok? && t'.charges != t.charges {
      var ids := t'.byKey[effect.downstreamKey];
      assert ids[|ids| - 1] == r.value.externalId;
    }
  }

  /** The check against creation time is conservative: a redispatch it admits finds the key remembered. */
  lemma RedispatchDedupes(s: System, l: Label, a: nat)
    requires Sound(s) && Retained(s) && l.Call? && l.a == a && InTime(s, l)
    requires a in s.actors && s.actors[a].Calling? && s.actors[a].party.Reconciler?
    ensures var id := s.actors[a].rec.effectId;
            id in s.ledger.entries && (Charges(s, id) != {} ==> FirstCharge(s.target, KeyOf(s, id)).Some?)
  {
    hide CallsOk, ChargedByCalls, LedgerOk, UniqueOwners, TargetInv;
    var p := s.actors[a];
    var id := p.rec.effectId;
    assert ActorOk(s.ledger, p);
    if Charges(s, id) != {} {
      var x :| x in Charges(s, id);
      HomeOf(s, x, id);
      assert RetainedEffect(s, id) && StillRemembered(s, id, x);
      TargetOkFact(s);
      RememberedHasFirst(s.target, KeyOf(s, id), x);
    }
  }

  lemma RememberedHasFirst(t: Target, key: DownstreamKey, x: string)
    requires TargetOk(t) && x in Remembered(t, key)
    ensures FirstCharge(t, key).Some?
  {
  }

  lemma CalledRetains(s: System, s': System, l: Label, k: Kind, id: string)
    requires Sound(s) && Fenced(s) && Clean(s, true) && Retained(s) && InTime(s, l)
    requires Is(s, s', k) && k.Called? && Matches(l, k) && id in s'.ledger.entries
    ensures RetainedEffect(s', id)
  {
    hide Is, CallsOk, ChargedByCalls, LedgerOk, UniqueOwners, TargetInv, Commit, ChargesFor, Fenced, SnapOk, InTime,
         Retained;
    CalledShape(s, s', k);
    TargetOkFact(s);
    var p := Pc(s, k.a);
    var dedupe := Dedupes(p.rec.contract.safety);
    CommitKeepsTarget(s.target, p.rec, dedupe, s.clock);
    CommitRemembers(s.target, p.rec, dedupe, s.clock);
    RetainedAt(s, id);
    if id == p.rec.effectId {
      CalledOwnRetains(s, s', l, k);
    } else {
      OtherChargesKept(s, s', k, id);
      ChargesAreCharges(s, id);
    }
  }

  lemma RetainedAt(s: System, id: string)
    requires Retained(s) && id in s.ledger.entries
    ensures RetainedEffect(s, id)
  {
  }

  lemma ChargesAreCharges(s: System, id: string)
    requires id in s.ledger.entries
    ensures forall x :: x in Charges(s, id) ==> x in s.target.charges
  {
  }

  lemma CalledOwnRetains(s: System, s': System, l: Label, k: Kind)
    requires Sound(s) && Fenced(s) && Clean(s, true) && Retained(s) && InTime(s, l)
    requires Is(s, s', k) && k.Called? && Matches(l, k)
    ensures Pc(s, k.a).Calling? && Pc(s, k.a).rec.effectId in s'.ledger.entries
    ensures RetainedEffect(s', Pc(s, k.a).rec.effectId)
  {
    hide Is, CallsOk, ChargedByCalls, LedgerOk, UniqueOwners, TargetInv, Commit, Retained, InTime, Clean, SamePinned;
    CalledShape(s, s', k);
    TargetOkFact(s);
    var p := Pc(s, k.a);
    var id := p.rec.effectId;
    assert ActorOk(s.ledger, p);
    CallerPinned(s, k.a);
    var dedupe := Dedupes(p.rec.contract.safety);
    CommitKeepsTarget(s.target, p.rec, dedupe, s.clock);
    CommitRemembers(s.target, p.rec, dedupe, s.clock);
    CommitCharges(s.target, p.rec, dedupe, s.clock);
    RetainedAt(s, id);
    if p.party.Reconciler? {
      RedispatchDedupes(s, l, k.a);
    } else {
      WorkerUncharged(s, k.a);
    }
  }

  lemma CallerPinned(s: System, a: nat)
    requires Inv(s) && a in s.actors && s.actors[a].Calling?
    ensures var rec := s.actors[a].rec;
            rec.effectId in s.ledger.entries && rec.downstreamKey == KeyOf(s, rec.effectId)
            && rec.contract == Current(s, rec.effectId).contract
  {
    hide LedgerOk, UniqueOwners;
    assert ActorOk(s.ledger, s.actors[a]);
  }

  /** Where AdapterError means what it says, a worker's call always finds its effect uncharged. */
  lemma WorkerUncharged(s: System, a: nat)
    requires Inv(s) && Fenced(s) && Clean(s, true)
    requires a in s.actors && s.actors[a].Calling? && s.actors[a].party.Worker?
    ensures s.actors[a].rec.effectId in s.ledger.entries && Charges(s, s.actors[a].rec.effectId) == {}
  {
    hide Inv, EffectClean;
    assert IsCurrent(s, s.actors[a].rec);
    assert ActorClean(s, s.actors[a], true);
  }

  lemma OtherRetains(s: System, s': System, l: Label, k: Kind, id: string)
    requires Sound(s) && Retained(s) && ForgetsLate(s, l)
    requires Is(s, s', k) && !k.Called? && Matches(l, k) && id in s'.ledger.entries
    ensures RetainedEffect(s', id)
  {
    hide CallsOk, ChargedByCalls, Inv, TargetInv, ForgetsLate, Retained, ActorOk, MayWrite, Truthful, EntryOk, MoveEntry;
    KindGrows(s, s', k);
    if id in s.ledger.entries {
      KeyKept(s, s', id);
      RetainedAt(s, id);
      if k.Forgot? {
        ForgotLate(s, l, id);
      }
    } else {
      FreshKeyUncharged(s, s', k, id);
    }
  }

  lemma ForgotLate(s: System, l: Label, id: string)
    requires l.Forget? && ForgetsLate(s, l) && id in s.ledger.entries
    ensures KeyOf(s, id) == l.key && Current(s, id).contract.keyRetention.Some? ==>
              forall x :: x in Charges(s, id) ==>
                s.clock > s.target.charges[x].committedAt + Current(s, id).contract.keyRetention.value
  {
  }

  lemma NextKeepsRetained(s: System, l: Label)
    requires Sound(s) && Fenced(s) && Clean(s, true) && Retained(s)
    requires ForgetsLate(s, l) && InTime(s, l)
    ensures Retained(Next(s, l))
  {
    hide Inv, CallsOk, TargetInv, ChargedByCalls, Fenced, Clean, Retained, RetainedEffect, Next, Is, Matches, ForgetsLate, InTime;
    var k := Classify(s, l);
    var s' := Next(s, l);
    forall id | id in s'.ledger.entries
      ensures RetainedEffect(s', id)
    {
      if k.Called? {
        CalledRetains(s, s', l, k, id);
      } else {
        OtherRetains(s, s', l, k, id);
      }
    }
    RetainedIntro(s');
  }

  lemma RetainedIntro(s: System)
    requires forall id :: id in s.ledger.entries ==> RetainedEffect(s, id)
    ensures Retained(s)
  {
  }

  lemma {:induction false} RunRetained(s: System, run: seq<Label>)
    requires Sound(s) && Fenced(s) && Clean(s, true) && Retained(s)
    requires Throughout(OwnerGone, s, run) && Throughout(ProvenNonCommit, s, run)
    requires Throughout(ForgetsLate, s, run) && Throughout(InTime, s, run)
    ensures Retained(After(s, run))
  {
    hide Sound, Fenced, Clean, Retained, Next, OwnerGone, ProvenNonCommit, ForgetsLate, InTime;
    if run == [] {
    } else {
      RunRetained(s, run[..|run| - 1]);
      RunOnce(s, run[..|run| - 1], true);
      NextKeepsRetained(After(s, run[..|run| - 1]), run[|run| - 1]);
    }
  }

  /**
   * Retention suffices: a target that keeps each key through its declared retention, counted from the
   * charge, never charges twice as long as no redispatch lands later than creation plus retention.
   */
  lemma OnceInTime(secret: string, now: int, run: seq<Label>, id: string)
    requires Throughout(OwnerGone, Start(secret, now), run) && Throughout(ProvenNonCommit, Start(secret, now), run)
    requires Throughout(ForgetsLate, Start(secret, now), run) && Throughout(InTime, Start(secret, now), run)
    requires id in After(Start(secret, now), run).ledger.entries
    ensures |Charges(After(Start(secret, now), run), id)| <= 1
  {
    hide After, Sound, Fenced, Clean, Throughout, Charges;
    var s0 := Start(secret, now);
    StartSound(secret, now);
    StartClean(secret, now, true);
    RunRetained(s0, run);
    RetainedAt(After(s0, run), id);
    if Current(After(s0, run), id).contract.safety != Idempotent {
      OnceByFencing(secret, now, run, id);
    }
  }

  /** The reconciler's check admits only instants that are in time. */
  lemma PromptIsInTime(s: System, l: Label)
    requires Inv(s) && PromptRedispatch(s, l)
    ensures InTime(s, l)
  {
    hide LedgerOk, UniqueOwners;
    if l.Call? && Pc(s, l.a).Calling? {
      assert ActorOk(s.ledger, Pc(s, l.a));
    }
  }

  lemma {:induction false} PromptThroughout(s: System, run: seq<Label>)
    requires Inv(s) && Throughout(PromptRedispatch, s, run)
    ensures Throughout(InTime, s, run)
  {
    hide Inv, Next, PromptRedispatch, InTime;
    if run == [] {
    } else {
      PromptThroughout(s, run[..|run| - 1]);
      RunKeeps(s, run[..|run| - 1]);
      PromptIsInTime(After(s, run[..|run| - 1]), run[|run| - 1]);
    }
  }

  /** The reconciler's check is conservative: a redispatch that lands as it is checked never charges twice. */
  lemma OnceUnderRetention(secret: string, now: int, run: seq<Label>, id: string)
    requires Throughout(OwnerGone, Start(secret, now), run) && Throughout(ProvenNonCommit, Start(secret, now), run)
    requires Throughout(ForgetsLate, Start(secret, now), run) && Throughout(PromptRedispatch, Start(secret, now), run)
    requires id in After(Start(secret, now), run).ledger.entries
    ensures |Charges(After(Start(secret, now), run), id)| <= 1
  {
    hide After, Throughout, Charges;
    StartOk(secret, now);
    PromptThroughout(Start(secret, now), run);
    OnceInTime(secret, now, run, id);
  }
}
