/**
 * How late a redispatch may land: creation plus key retention is the last safe instant, to the microsecond. A
 * target that forgets a key as early as it may charges twice when the call lands one instant later.
 */
module RetentionExact {
  import opened Prelude
  import opened PyValues
  import opened Identifiers
  import opened Identity
  import opened Models
  import opened StateMachine
  import opened Ledger
  import opened LedgerProofs
  import opened Target
  import opened Protocol
  import opened ProtocolInvariant
  import opened ProtocolSteps
  import opened ProtocolTarget
  import ProtocolTheorems
  import Worker
  import Reconciler

  /** A redispatch lands at most slack instants after creation plus key retention. */
  ghost predicate LandsBy(slack: int, s: System, l: Label) {
    l.Call? && Pc(s, l.a).Calling? && Pc(s, l.a).party.Reconciler? ==>
      var rec := Pc(s, l.a).rec;
      rec.contract.keyRetention.Some? && s.clock <= rec.createdAt + rec.contract.keyRetention.value + slack
  }

  /** The hypotheses of the retention theorem, with some slack. */
  ghost predicate Fair(s: System, run: seq<Label>, slack: int) {
    && Throughout(OwnerGone, s, run) && Throughout(ProvenNonCommit, s, run) && Throughout(ForgetsLate, s, run)
    && Throughout(ValidContracts, s, run) && Throughout((m, l) => LandsBy(slack, m, l), s, run)
  }

  lemma FairStep(s: System, run: seq<Label>, l: Label, slack: int)
    requires Fair(s, run, slack)
    requires var m := After(s, run);
             OwnerGone(m, l) && ProvenNonCommit(m, l) && ForgetsLate(m, l) && ValidContracts(m, l) && LandsBy(slack, m, l)
    ensures Fair(s, run + [l], slack) && After(s, run + [l]) == Next(After(s, run), l)
  {
    hide Next, OwnerGone, ProvenNonCommit, ForgetsLate, ValidContracts, LandsBy;
    assert (run + [l])[..|run|] == run;
  }

  /** Steps about which the hypotheses say nothing. */
  lemma FairAnyway(s: System, run: seq<Label>, l: Label, slack: int)
    requires Fair(s, run, slack)
    requires !l.MarkUnknown? && !l.Forget? && !l.Submit?
    requires l.Call? ==> !l.delivery.Refuse? && Pc(After(s, run), l.a).Calling? && Pc(After(s, run), l.a).party.Worker?
    ensures Fair(s, run + [l], slack) && After(s, run + [l]) == Next(After(s, run), l)
  {
    hide Next, Fair, After;
    FairStep(s, run, l, slack);
  }

  /** One effect, charged once, at its creation. */
  ghost predicate ChargedOnce(s: System, id: string, tenantId: string, contract: Contract, now: int) {
    && s.ledger.entries.Keys == {id}
    && (var rec := s.ledger.entries[id].record;
        && rec.effectId == id && rec.tenantId == tenantId && rec.contract == contract && rec.createdAt == now
        && s.target.charges.Keys == {ChargeId(1)} && s.target.nextChargeId == 2
        && s.target.charges[ChargeId(1)].downstreamKey == rec.downstreamKey
        && s.target.charges[ChargeId(1)].committedAt == now)
  }

  // ---------------------------------------------------------------- a worker charges and hears nothing

  lemma SubmittedFirst(secret: string, now: int, id: string, tenantId: string, request: Request, contract: Contract)
    requires Canonicalizable(request.arguments)
    ensures var m := Next(Start(secret, now), Submit(id, tenantId, request, contract));
            && m.ledger.entries.Keys == {id} && m.actors == map[] && m.target == EMPTY_TARGET && m.clock == now
            && (var e := m.ledger.entries[id];
                && e.record.effectId == id && e.record.tenantId == tenantId && e.record.contract == contract
                && e.record.createdAt == now && e.record.status == Prepared && e.lease == None)
  {
    hide RequestHash, OperationKeyOf;
    HashExists(request.tool, request.arguments, contract.name, contract.version);
  }

  lemma ClaimedFirst(m: System, id: string)
    requires m.ledger.entries.Keys == {id} && Pc(m, 0).Idle? && m.ledger.entries[id].record.effectId == id
    requires m.ledger.entries[id].record.status == Prepared && m.ledger.entries[id].lease == None
    ensures var m' := Next(m, Claim(0, "w", m.clock, [id], 0));
            && m'.ledger.entries.Keys == {id} && m'.target == m.target && m'.clock == m.clock
            && Pc(m', 0) == Ready("w", [m'.ledger.entries[id].record]) && Pc(m', 1) == Pc(m, 1)
            && SamePinned(m.ledger.entries[id].record, m'.ledger.entries[id].record)
            && Worker.Fresh(m', m'.ledger.entries[id].record)
  {
    var ids := [id];
    assert ids[0] in ids && forall x :: x in ids ==> x == id;
  }

  lemma FirstCommit(rec: Record, dedupe: bool, now: int)
    ensures var (t', r) := Commit(EMPTY_TARGET, rec, dedupe, now);
            && r.Ok? && t'.charges.Keys == {ChargeId(1)} && t'.nextChargeId == 2
            && t'.charges[ChargeId(1)].downstreamKey == rec.downstreamKey && t'.charges[ChargeId(1)].committedAt == now
  {
    hide ChargeId, Argument;
  }

  /** The worker's four steps: the charge is made and the response lost. */
  lemma Charge(m: System, id: string, tenantId: string, contract: Contract)
    requires m.ledger.entries.Keys == {id} && m.target == EMPTY_TARGET
    requires var rec := m.ledger.entries[id].record;
             && Pc(m, 0) == Ready("w", [rec]) && Worker.Fresh(m, rec) && rec.effectId == id
             && rec.tenantId == tenantId && rec.contract == contract && rec.createdAt == m.clock
    ensures var m1 := Next(m, Begin(0));
            var m2 := Next(m1, Label.Attempt(0));
            var m3 := Next(m2, Call(0, Land(Silent("timeout"))));
            var m4 := Next(m3, Report(0));
            && Pc(m2, 0).Calling? && Pc(m2, 0).party.Worker?
            && m4.clock == m.clock && Pc(m4, 1) == Pc(m, 1)
            && ChargedOnce(m4, id, tenantId, contract, m.clock) && m4.ledger.entries[id].record.status == OutcomeUnknown
  {
    hide Next, WorkerData, FailureData, ChargeId, AttemptId, Commit, Argument;
    var rec := m.ledger.entries[id].record;
    var party := Party.Worker("w");
    Worker.BeginWorks(m, 0, "w", [rec]);
    var m1 := Next(m, Begin(0));
    var held := Pc(m1, 0).rec;
    Worker.AttemptWorks(m1, 0, party, held, []);
    var m2 := Next(m1, Label.Attempt(0));
    var attemptId := Pc(m2, 0).attemptId;
    FirstCommit(held, Dedupes(held.contract.safety), m.clock);
    Worker.CallWorks(m2, 0, party, held, attemptId, [], Land(Silent("timeout")));
    var m3 := Next(m2, Call(0, Land(Silent("timeout"))));
    Worker.ReportWorks(m3, 0, party, held, attemptId, Ambiguous("timeout"), []);
  }

  // ---------------------------------------------------------------- a reconciler checks at the last valid instant

  lemma Recheck(m: System, id: string, tenantId: string, contract: Contract, now: int)
    requires Inv(m) && ChargedOnce(m, id, tenantId, contract, now) && m.ledger.entries[id].record.status == OutcomeUnknown
    requires contract.safety == Idempotent && contract.keyRetention.Some? && m.clock == now + contract.keyRetention.value
    requires Pc(m, 1).Idle?
    ensures var m1 := Next(m, Fetch(1, tenantId, id));
            var m2 := Next(m1, Route(1, m.clock));
            var m3 := Next(m2, Label.Attempt(1));
            && m3.clock == m.clock && ChargedOnce(m3, id, tenantId, contract, now)
            && Pc(m3, 1).Calling? && Pc(m3, 1).party.Reconciler? && Worker.Holding(m3, Pc(m3, 1).rec) && Pc(m3, 1).rec.effectId == id
  {
    hide Next, Inv, ReasonData, ChargeId, AttemptId;
    FetchWorks(m, id, tenantId);
    var rec := m.ledger.entries[id].record;
    var m1 := Next(m, Fetch(1, tenantId, id));
    NextKeeps(m, Fetch(1, tenantId, id));
    Reconciler.RouteWorks(m1, 1, rec, m.clock);
    Reconciler.FirstStop(rec, m.clock);
    var m2 := Next(m1, Route(1, m.clock));
    var moved := m2.ledger.entries[id].record;
    Worker.AttemptWorks(m2, 1, Party.Reconciler(m.clock), moved, []);
  }

  lemma FetchWorks(m: System, id: string, tenantId: string)
    requires id in m.ledger.entries && m.ledger.entries[id].record.tenantId == tenantId && Pc(m, 1).Idle?
    ensures Next(m, Fetch(1, tenantId, id)) == Put(m, 1, Routing(m.ledger.entries[id].record))
  {
  }

  // ---------------------------------------------------------------- and lands one instant later

  lemma ForgottenCommit(t: Target, rec: Record, now: int)
    requires t.charges.Keys == {ChargeId(1)} && t.nextChargeId == 2 && t.charges[ChargeId(1)].downstreamKey == rec.downstreamKey
    requires rec.downstreamKey !in t.byKey
    ensures |ChargesFor(Commit(t, rec, true, now).0, rec.downstreamKey)| == 2
  {
    hide Argument;
    var t' := Commit(t, rec, true, now).0;
    if ChargeId(1) == ChargeId(2) {
      ChargeIdInjective(1, 2);
    }
    assert t'.charges.Keys == {ChargeId(1), ChargeId(2)};
    assert ChargesFor(t', rec.downstreamKey) == {ChargeId(1), ChargeId(2)};
  }

  lemma LandsLate(m: System, id: string, tenantId: string, contract: Contract, now: int)
    requires ChargedOnce(m, id, tenantId, contract, now)
    requires contract.safety == Idempotent && contract.keyRetention.Some? && m.clock == now + contract.keyRetention.value + 1
    requires Pc(m, 1).Calling? && Pc(m, 1).party.Reconciler? && Worker.Holding(m, Pc(m, 1).rec) && Pc(m, 1).rec.effectId == id
    ensures id in m.ledger.entries
    ensures ForgetsLate(m, Forget(KeyOf(m, id)))
    ensures var m1 := Next(m, Forget(KeyOf(m, id)));
            var m2 := Next(m1, Call(1, Land(Answered)));
            && LandsBy(1, m1, Call(1, Land(Answered)))
            && id in m2.ledger.entries && |Charges(m2, id)| == 2
  {
    hide ChargeId, Commit;
    var p := Pc(m, 1);
    ForgottenCommit(ForgetKey(m.target, KeyOf(m, id)), p.rec, m.clock);
    var m1 := Next(m, Forget(KeyOf(m, id)));
    Worker.CallWorks(m1, 1, p.party, p.rec, p.attemptId, p.rest, Land(Answered));
  }

  /**
   * For every valid idempotent contract there is a run in which every check is in time, the target keeps every
   * key for the whole retention of its charge, no call lands more than one instant late, and the effect is
   * charged twice.
   */
  lemma OneInstantLate(secret: string, now: int, id: string, tenantId: string, request: Request, contract: Contract) returns (run: seq<Label>)
    requires ValidateContract(contract).None? && contract.safety == Idempotent && Canonicalizable(request.arguments)
    ensures Fair(Start(secret, now), run, 1)
    ensures id in After(Start(secret, now), run).ledger.entries && |Charges(After(Start(secret, now), run), id)| == 2
  {
    hide Next, Fair, After, Inv, ChargedOnce, Pc, Charges, Worker.Holding;
    var s := Start(secret, now);
    run := ChargedRun(secret, now, id, tenantId, request, contract);
    var retention := contract.keyRetention.value;
    var charged := After(s, run);
    run := LaterRun(s, run, now + retention);
    TimePasses(charged, now + retention, id, tenantId, contract, now);
    StartOk(secret, now);
    RunKeeps(s, run);
    Recheck(After(s, run), id, tenantId, contract, now);
    FairAnyway(s, run, Fetch(1, tenantId, id), 1);
    run := run + [Fetch(1, tenantId, id)];
    FairAnyway(s, run, Route(1, now + retention), 1);
    run := run + [Route(1, now + retention)];
    FairAnyway(s, run, Label.Attempt(1), 1);
    run := run + [Label.Attempt(1)];
    var before := After(s, run);
    run := LaterRun(s, run, now + retention + 1);
    TimePasses(before, now + retention + 1, id, tenantId, contract, now);
    var m := After(s, run);
    LandsLate(m, id, tenantId, contract, now);
    var key := KeyOf(m, id);
    FairStep(s, run, Forget(key), 1);
    run := run + [Forget(key)];
    FairStep(s, run, Call(1, Land(Answered)), 1);
    run := run + [Call(1, Land(Answered))];
  }

  lemma TimePasses(m: System, later: int, id: string, tenantId: string, contract: Contract, now: int)
    requires ChargedOnce(m, id, tenantId, contract, now)
    ensures ChargedOnce(m.(clock := later), id, tenantId, contract, now)
    ensures Pc(m.(clock := later), 1) == Pc(m, 1)
    ensures Pc(m, 1).Calling? && Worker.Holding(m, Pc(m, 1).rec) ==> Worker.Holding(m.(clock := later), Pc(m, 1).rec)
  {
    hide ChargeId;
  }

  lemma LaterRun(s: System, run: seq<Label>, now: int) returns (later: seq<Label>)
    requires Fair(s, run, 1) && After(s, run).clock <= now
    ensures Fair(s, later, 1) && After(s, later) == After(s, run).(clock := now)
  {
    hide Fair, After;
    FairAnyway(s, run, Tick(now), 1);
    later := run + [Tick(now)];
  }

  /** The first half of it: charged at creation, response lost, outcome unknown. */
  lemma ChargedRun(secret: string, now: int, id: string, tenantId: string, request: Request, contract: Contract) returns (run: seq<Label>)
    requires ValidateContract(contract).None? && Canonicalizable(request.arguments)
    ensures var m := After(Start(secret, now), run);
            && Fair(Start(secret, now), run, 1) && m.clock == now && Pc(m, 1).Idle?
            && ChargedOnce(m, id, tenantId, contract, now) && m.ledger.entries[id].record.status == OutcomeUnknown
  {
    hide Next, Fair, After, ChargedOnce, Worker.Fresh;
    var s := Start(secret, now);
    run := [];
    EmptyIsFair(s);
    SubmittedFirst(secret, now, id, tenantId, request, contract);
    var submit := Submit(id, tenantId, request, contract);
    FairStep(s, run, submit, 1);
    run := run + [submit];
    ClaimedFirst(After(s, run), id);
    var claim := Claim(0, "w", now, [id], 0);
    FairAnyway(s, run, claim, 1);
    run := run + [claim];
    Charge(After(s, run), id, tenantId, contract);
    FairAnyway(s, run, Begin(0), 1);
    run := run + [Begin(0)];
    FairAnyway(s, run, Label.Attempt(0), 1);
    run := run + [Label.Attempt(0)];
    FairAnyway(s, run, Call(0, Land(Silent("timeout"))), 1);
    run := run + [Call(0, Land(Silent("timeout")))];
    FairAnyway(s, run, Report(0), 1);
    run := run + [Report(0)];
  }

  lemma EmptyIsFair(s: System)
    ensures Fair(s, [], 1) && After(s, []) == s
  {
  }

  // ---------------------------------------------------------------- the exact bound

  lemma {:induction false} MoreSlack(s: System, run: seq<Label>, slack: int, more: int)
    requires slack <= more && Throughout((m, l) => LandsBy(slack, m, l), s, run)
    ensures Throughout((m, l) => LandsBy(more, m, l), s, run)
  {
    hide Next;
    if run == [] {
    } else {
      MoreSlack(s, run[..|run| - 1], slack, more);
      assert LandsBy(slack, After(s, run[..|run| - 1]), run[|run| - 1]);
    }
  }

  lemma {:induction false} NoSlackIsInTime(s: System, run: seq<Label>)
    requires Throughout((m, l) => LandsBy(0, m, l), s, run)
    ensures Throughout(InTime, s, run)
  {
    hide Next;
    if run == [] {
    } else {
      NoSlackIsInTime(s, run[..|run| - 1]);
      assert LandsBy(0, After(s, run[..|run| - 1]), run[|run| - 1]);
    }
  }

  /** No fair run with this much slack charges an effect twice. */
  ghost predicate SafeWith(slack: int, secret: string, now: int, run: seq<Label>, id: string) {
    Fair(Start(secret, now), run, slack) && id in After(Start(secret, now), run).ledger.entries ==>
      |Charges(After(Start(secret, now), run), id)| <= 1
  }

  /** A redispatch may land up to creation plus key retention, and not an instant later. */
  lemma LatestSafeInstant(slack: int)
    ensures (forall secret: string, now: int, run: seq<Label>, id: string :: SafeWith(slack, secret, now, run, id)) <==> slack <= 0
  {
    hide After, Charges, Throughout;
    if slack <= 0 {
      forall secret: string, now: int, run: seq<Label>, id: string
        ensures SafeWith(slack, secret, now, run, id)
      {
        if Fair(Start(secret, now), run, slack) && id in After(Start(secret, now), run).ledger.entries {
          MoreSlack(Start(secret, now), run, slack, 0);
          NoSlackIsInTime(Start(secret, now), run);
          ProtocolTheorems.OnceInTime(secret, now, run, id);
        }
      }
    } else {
      var request := Request("operation", "tool", PyNone, "requester", None);
      var contract := Contract("tool", "v1", Idempotent, 0, Some(1), None);
      var run := OneInstantLate("secret", 0, "effect", "tenant", request, contract);
      MoreSlack(Start("secret", 0), run, 1, slack);
      assert !SafeWith(slack, "secret", 0, run, "effect");
    }
  }
}
