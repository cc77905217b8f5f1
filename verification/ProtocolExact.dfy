/**
 * The OwnerGone hypothesis is exactly what reconcilable effects need: giving one up as unknown is
 * safe in every continuation if and only if no actor is still about to call the target for it.
 */
module ProtocolExact {
  import opened Prelude
  import opened Json
  import Identifiers
  import opened Models
  import opened StateMachine
  import opened Ledger
  import opened LedgerProofs
  import opened Target
  import opened Protocol
  import opened ProtocolInvariant
  import opened ProtocolSteps
  import opened ProtocolCalls
  import opened ProtocolTarget
  import opened ProtocolRuns
  import opened ProtocolOnce
  import opened ProtocolTheorems

  lemma {:induction false} FreshActor(used: set<nat>) returns (b: nat)
    ensures b !in used
    ensures forall x :: x in used ==> x < b
    decreases used
  {
    if used == {} {
      b := 0;
    } else {
      var x :| x in used;
      var above := FreshActor(used - {x});
      b := if x < above then above else x + 1;
      assert forall y :: y in used ==> y == x || y in used - {x};
    }
  }

  /** A run without MarkUnknown gives nobody up. */
  lemma {:induction false} NoOneGivenUp(s: System, run: seq<Label>)
    requires forall i :: 0 <= i < |run| ==> !run[i].MarkUnknown?
    ensures Throughout(OwnerGone, s, run)
  {
    hide Next, CallPending;
    if run == [] {
    } else {
      NoOneGivenUp(s, run[..|run| - 1]);
    }
  }

  // ---------------------------------------------------------------- a second dispatch beside a paused one

  /** One effect, the paused owner and the recovering actor, seen in the middle of the run. */
  ghost predicate Stage(s0: System, s: System, a: nat, b: nat, rec: Record, leased: bool, p: Actor) {
    && rec.effectId in s.ledger.entries
    && s.ledger.entries[rec.effectId].record == rec
    && (!leased ==> s.ledger.entries[rec.effectId].lease == None)
    && a != b && a in s.actors && a in s0.actors && s.actors[a] == s0.actors[a]
    && Pc(s, b) == p
    && s.clock == s0.clock && s.target == s0.target
  }

  function MovedTo(rec: Record, status: Status, now: int): Record {
    rec.(status := status, version := rec.version + 1, updatedAt := now)
  }

  lemma MarkStage(s: System, a: nat, b: nat, rec: Record)
    requires Stage(s, s, a, b, rec, false, Idle) && rec.status == Dispatching
    ensures Stage(s, Next(s, MarkUnknown(rec.effectId)), a, b, MovedTo(rec, OutcomeUnknown, s.clock), false, Idle)
  {
  }

  lemma FetchStage(s0: System, s: System, a: nat, b: nat, rec: Record)
    requires Stage(s0, s, a, b, rec, false, Idle)
    ensures Stage(s0, Next(s, Fetch(b, rec.tenantId, rec.effectId)), a, b, rec, false, Routing(rec))
  {
  }

  lemma RouteStage(s0: System, s: System, a: nat, b: nat, rec: Record)
    requires Stage(s0, s, a, b, rec, false, Routing(rec))
    requires rec.status == OutcomeUnknown && rec.contract.safety == Reconcilable
    ensures var moved := MovedTo(rec, Reconciling, s.clock);
            Stage(s0, Next(s, Route(b, s0.clock)), a, b, moved, false, Probing(moved))
  {
  }

  lemma ProbeStage(s0: System, s: System, a: nat, b: nat, rec: Record)
    requires Stage(s0, s, a, b, rec, false, Probing(rec)) && ChargesFor(s.target, rec.downstreamKey) == {}
    ensures Stage(s0, Next(s, Probe(b, ProvenAbsent, map[])), a, b, rec, false, Judging(rec, ProvenAbsent, map[]))
  {
  }

  lemma JudgeStage(s0: System, s: System, a: nat, b: nat, rec: Record)
    requires Stage(s0, s, a, b, rec, false, Judging(rec, ProvenAbsent, map[])) && rec.status == Reconciling
    ensures Stage(s0, Next(s, Judge(b)), a, b, MovedTo(rec, Prepared, s.clock), false, Idle)
  {
  }

  lemma ClaimStage(s0: System, s: System, a: nat, b: nat, rec: Record)
    requires Stage(s0, s, a, b, rec, false, Idle) && rec.status == Prepared
    ensures var claimed := MovedTo(rec, Prepared, s.clock);
            Stage(s0, Next(s, Claim(b, "recovery", s0.clock, [rec.effectId], 0)), a, b, claimed, true, Ready("recovery", [claimed]))
  {
    assert ClaimEnabled(s, b, s.clock, [rec.effectId]);
    assert rec.effectId in [rec.effectId];
    assert ClaimedRecords(s.ledger, [rec.effectId], "recovery", s.clock, 0) == [MovedTo(rec, Prepared, s.clock)];
  }

  lemma BeginStage(s0: System, s: System, a: nat, b: nat, rec: Record)
    requires Stage(s0, s, a, b, rec, true, Ready("recovery", [rec])) && rec.status == Prepared
    ensures var moved := MovedTo(rec, Dispatching, s.clock);
            Stage(s0, Next(s, Begin(b)), a, b, moved, true, Admitted(Worker("recovery"), moved, []))
  {
  }

  lemma AttemptStage(s0: System, s: System, a: nat, b: nat, rec: Record) returns (attemptId: string)
    requires Stage(s0, s, a, b, rec, true, Admitted(Worker("recovery"), rec, []))
    ensures Stage(s0, Next(s, Label.Attempt(b)), a, b, rec, true, Calling(Worker("recovery"), rec, attemptId, []))
  {
    attemptId := Pc(Next(s, Label.Attempt(b)), b).attemptId;
  }

  /** Without deduplication every call the target accepts is one more charge. */
  lemma EveryCallCharges(t: Target, effect: Record, now: int)
    requires TargetOk(t) && Commit(t, effect, false, now).1.Ok?
    ensures |ChargesFor(Commit(t, effect, false, now).0, effect.downstreamKey)| == |ChargesFor(t, effect.downstreamKey)| + 1
  {
    FreshChargeId(t);
    CommitCharges(t, effect, false, now);
    var t' := Commit(t, effect, false, now).0;
    assert t'.charges == t.charges[Identifiers.ChargeId(t.nextChargeId) := NewCharge(t, effect, now)];
  }

  /** A landing call by anyone for a reconcilable effect adds a charge to it. */
  lemma LandingCharges(s: System, a: nat, id: string)
    requires Sound(s) && a in s.actors && s.actors[a].Calling? && s.actors[a].rec.effectId == id
    requires s.actors[a].rec.contract.safety == Reconcilable && id in s.ledger.entries
    ensures var s' := Next(s, Call(a, Land(Answered)));
            && s'.ledger == s.ledger && |Charges(s', id)| == |Charges(s, id)| + 1
            && forall c :: c in s.actors && c != a ==> c in s'.actors && s'.actors[c] == s.actors[c]
  {
    hide CallsOk, ChargedByCalls, TargetInv, Commit, ChargesFor, LedgerOk, UniqueOwners;
    NoDrift(s, a);
    CallerPinned(s, a);
    TargetOkFact(s);
    EveryCallCharges(s.target, s.actors[a].rec, s.clock);
  }

  /** The run in which a recovered effect is dispatched again while its first owner sleeps. */
  function RecoveryRun(now: int, b: nat, tenantId: string, id: string): seq<Label> {
    [] + [Fetch(b, tenantId, id)] + [Route(b, now)] + [Probe(b, ProvenAbsent, map[])] + [Judge(b)]
    + [Claim(b, "recovery", now, [id], 0)] + [Begin(b)] + [Label.Attempt(b)]
  }

  lemma RecoveryStages(s0: System, s1: System, a: nat, b: nat, rec: Record) returns (last: Record, attemptId: string)
    requires Stage(s0, s1, a, b, rec, false, Idle)
    requires rec.status == OutcomeUnknown && rec.contract.safety == Reconcilable
    requires ChargesFor(s0.target, rec.downstreamKey) == {}
    ensures SamePinned(rec, last)
    ensures Stage(s0, After(s1, RecoveryRun(s0.clock, b, rec.tenantId, rec.effectId)), a, b, last, true,
                  Calling(Worker("recovery"), last, attemptId, []))
  {
    hide Stage, Next, ChargesFor;
    FetchStage(s0, s1, a, b, rec);
    var r0: seq<Label> := [];
    assert After(s1, r0) == s1;
    var r1 := r0 + [Fetch(b, rec.tenantId, rec.effectId)];
    AfterStep(s1, r0, Fetch(b, rec.tenantId, rec.effectId));
    StageFacts(s0, After(s1, r1), a, b, rec, false, Routing(rec));
    RouteStage(s0, After(s1, r1), a, b, rec);
    var rec2 := MovedTo(rec, Reconciling, s0.clock);
    var r2 := r1 + [Route(b, s0.clock)];
    AfterStep(s1, r1, Route(b, s0.clock));
    StageFacts(s0, After(s1, r2), a, b, rec2, false, Probing(rec2));
    ProbeStage(s0, After(s1, r2), a, b, rec2);
    var r3 := r2 + [Probe(b, ProvenAbsent, map[])];
    AfterStep(s1, r2, Probe(b, ProvenAbsent, map[]));
    StageFacts(s0, After(s1, r3), a, b, rec2, false, Judging(rec2, ProvenAbsent, map[]));
    JudgeStage(s0, After(s1, r3), a, b, rec2);
    var rec4 := MovedTo(rec2, Prepared, s0.clock);
    var r4 := r3 + [Judge(b)];
    AfterStep(s1, r3, Judge(b));
    last, attemptId := DispatchStages(s0, s1, a, b, rec4, r4);
  }

  lemma StageFacts(s0: System, s: System, a: nat, b: nat, rec: Record, leased: bool, p: Actor)
    requires Stage(s0, s, a, b, rec, leased, p)
    ensures s.clock == s0.clock && s.target == s0.target
  {
  }

  lemma DispatchStages(s0: System, s1: System, a: nat, b: nat, rec: Record, done: seq<Label>)
    returns (last: Record, attemptId: string)
    requires Stage(s0, After(s1, done), a, b, rec, false, Idle) && rec.status == Prepared
    ensures SamePinned(rec, last)
    ensures Stage(s0, After(s1, done + [Claim(b, "recovery", s0.clock, [rec.effectId], 0)] + [Begin(b)] + [Label.Attempt(b)]),
                  a, b, last, true, Calling(Worker("recovery"), last, attemptId, []))
  {
    hide Stage, Next;
    var s := After(s1, done);
    StageFacts(s0, s, a, b, rec, false, Idle);
    ClaimStage(s0, s, a, b, rec);
    var claimed := MovedTo(rec, Prepared, s0.clock);
    var r1 := done + [Claim(b, "recovery", s0.clock, [rec.effectId], 0)];
    AfterStep(s1, done, Claim(b, "recovery", s0.clock, [rec.effectId], 0));
    StageFacts(s0, After(s1, r1), a, b, claimed, true, Ready("recovery", [claimed]));
    BeginStage(s0, After(s1, r1), a, b, claimed);
    last := MovedTo(claimed, Dispatching, s0.clock);
    AfterStep(s1, r1, Begin(b));
    attemptId := AttemptStage(s0, After(s1, r1 + [Begin(b)]), a, b, last);
    AfterStep(s1, r1 + [Begin(b)], Label.Attempt(b));
  }

  /** Giving up a reconcilable effect while its owner is about to call admits a second charge. */
  lemma GivingUpTooEarly(s: System, a: nat) returns (later: seq<Label>)
    requires Sound(s) && Fenced(s) && Clean(s, false)
    requires a in s.actors && s.actors[a].Calling? && IsCurrent(s, s.actors[a].rec)
    requires s.actors[a].rec.contract.safety == Reconcilable
    ensures var id := s.actors[a].rec.effectId;
            var s1 := Next(s, MarkUnknown(id));
            && Throughout(OwnerGone, s1, later)
            && id in After(s1, later).ledger.entries
            && |Charges(After(s1, later), id)| == 2
  {
    var b := FreshActor(s.actors.Keys);
    hide Inv, CallsOk, TargetInv, ChargedByCalls, Fenced, Clean, Next, After, Stage, ChargesFor, Throughout;
    var rec := s.actors[a].rec;
    var id := rec.effectId;
    var s1 := Next(s, MarkUnknown(id));
    PausedStage(s, a, b);
    MarkStage(s, a, b, rec);
    var unknown := MovedTo(rec, OutcomeUnknown, s.clock);
    var last, attemptId := RecoveryStages(s, s1, a, b, unknown);
    var early := RecoveryRun(s.clock, b, rec.tenantId, id);
    var s2 := After(s1, early);
    NextSound(s, MarkUnknown(id));
    RunSound(s1, early);
    StageShows(s, s2, a, b, last, attemptId);
    LandingCharges(s2, b, id);
    var s3 := Next(s2, Call(b, Land(Answered)));
    NextSound(s2, Call(b, Land(Answered)));
    LandingCharges(s3, a, id);
    later := early + [Call(b, Land(Answered))] + [Call(a, Land(Answered))];
    AfterStep(s1, early, Call(b, Land(Answered)));
    AfterStep(s1, early + [Call(b, Land(Answered))], Call(a, Land(Answered)));
    NoOneGivenUp(s1, later);
  }

  lemma PausedStage(s: System, a: nat, b: nat)
    requires Sound(s) && Fenced(s) && Clean(s, false) && b !in s.actors
    requires a in s.actors && s.actors[a].Calling? && IsCurrent(s, s.actors[a].rec)
    requires s.actors[a].rec.contract.safety == Reconcilable
    ensures var rec := s.actors[a].rec;
            && Stage(s, s, a, b, rec, false, Idle) && rec.status == Dispatching
            && ChargesFor(s.target, rec.downstreamKey) == {}
  {
    hide CallsOk, ChargedByCalls, TargetInv, Fenced, EffectClean, UniqueOwners, IdentityOk, OrderOk, LogOk, AttemptsOk, ChargesFor;
    PendingIsDispatching(s, a);
    EntryFacts(s.ledger, s.actors[a].rec.effectId);
    CallerPinned(s, a);
    assert ActorOk(s.ledger, s.actors[a]);
    assert ActorClean(s, s.actors[a], false);
  }

  lemma StageShows(s0: System, s: System, a: nat, b: nat, rec: Record, attemptId: string)
    requires Stage(s0, s, a, b, rec, true, Calling(Worker("recovery"), rec, attemptId, []))
    ensures b in s.actors && s.actors[b].Calling? && s.actors[b].rec == rec && a != b
    ensures a in s.actors && a in s0.actors && s.actors[a] == s0.actors[a]
    ensures rec.effectId in s.ledger.entries && Charges(s, rec.effectId) == ChargesFor(s0.target, rec.downstreamKey)
  {
  }

  /** Every continuation that gives up nobody too early keeps the effect at one charge. */
  ghost predicate SafeFrom(s: System, id: string) {
    forall later :: Throughout(OwnerGone, s, later) && id in After(s, later).ledger.entries ==>
      |Charges(After(s, later), id)| <= 1
  }

  /**
   * In any state reached under OwnerGone, declaring a reconcilable effect's outcome unknown is safe in
   * every continuation exactly when no call is pending at its current version.
   */
  lemma GivingUpSafeIff(secret: string, now: int, run: seq<Label>, id: string)
    requires Throughout(OwnerGone, Start(secret, now), run)
    requires id in After(Start(secret, now), run).ledger.entries
    requires Current(After(Start(secret, now), run), id).contract.safety == Reconcilable
    ensures var s := After(Start(secret, now), run);
            SafeFrom(Next(s, MarkUnknown(id)), id) <==> !CallPending(s, id)
  {
    hide Sound, Fenced, Clean, Next, After, Throughout, Charges;
    var s := After(Start(secret, now), run);
    StartSound(secret, now);
    StartClean(secret, now, false);
    RunOnce(Start(secret, now), run, false);
    var s1 := Next(s, MarkUnknown(id));
    if CallPending(s, id) {
      var a :| a in s.actors && s.actors[a].Calling? && s.actors[a].rec.effectId == id
               && s.actors[a].rec.version == s.ledger.entries[id].record.version;
      InvOfSound(s);
      CallerPinned(s, a);
      var later := GivingUpTooEarly(s, a);
      assert |Charges(After(s1, later), id)| > 1;
    } else {
      NextSound(s, MarkUnknown(id));
      SoundNextOnce(s, id);
      forall later | Throughout(OwnerGone, s1, later) && id in After(s1, later).ledger.entries
        ensures |Charges(After(s1, later), id)| <= 1
      {
        RunOnce(s1, later, false);
        SafetyKept(s, s1, later, id);
        NonIdempotentOnce(After(s1, later), id);
      }
    }
  }

  lemma SoundNextOnce(s: System, id: string)
    requires Sound(s) && Fenced(s) && Clean(s, false) && !CallPending(s, id)
    ensures Fenced(Next(s, MarkUnknown(id))) && Clean(Next(s, MarkUnknown(id)), false)
  {
    hide Sound, Fenced, Clean, Next, CallPending;
    NextKeepsOnce(s, MarkUnknown(id), false);
  }

  lemma NonIdempotentOnce(s: System, id: string)
    requires Clean(s, false) && id in s.ledger.entries && Current(s, id).contract.safety != Idempotent
    ensures |Charges(s, id)| <= 1
  {
    hide ActorClean;
    assert EffectClean(s, id, false);
  }

  lemma {:induction false} ContractKept(s: System, run: seq<Label>, id: string)
    requires Inv(s) && id in s.ledger.entries
    ensures id in After(s, run).ledger.entries
    ensures Current(After(s, run), id).contract == Current(s, id).contract
  {
    hide Inv, Next, Is;
    if run == [] {
    } else {
      var before := After(s, run[..|run| - 1]);
      ContractKept(s, run[..|run| - 1], id);
      RunKeeps(s, run[..|run| - 1]);
      var k := Classify(before, run[|run| - 1]);
      KindGrows(before, Next(before, run[|run| - 1]), k);
      KeyKept(before, Next(before, run[|run| - 1]), id);
    }
  }

  lemma SafetyKept(s: System, s1: System, later: seq<Label>, id: string)
    requires Sound(s) && id in s.ledger.entries && s1 == Next(s, MarkUnknown(id)) && Sound(s1)
    ensures id in After(s1, later).ledger.entries
    ensures Current(After(s1, later), id).contract == Current(s, id).contract
  {
    hide Inv, CallsOk, TargetInv, ChargedByCalls, After, Next;
    ContractKept(s, [MarkUnknown(id)], id);
    AfterStep(s, [], MarkUnknown(id));
    assert [] + [MarkUnknown(id)] == [MarkUnknown(id)];
    EmptyRun(s);
    ContractKept(s1, later, id);
  }

}
