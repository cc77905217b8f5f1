/** Tenants over whole runs: an actor that works on a tenant's behalf writes that tenant's effects only. */
module ProtocolTenants {
  import opened Prelude
  import Json
  import opened Models
  import opened StateMachine
  import opened Ledger
  import opened LedgerProofs
  import opened Target
  import opened Protocol
  import opened ProtocolInvariant

  predicate Fetches(l: Label) {
    l.Fetch? || l.FetchCancel? || l.FetchResolve?
  }

  /** Who takes a label's step, if it is an actor's. */
  function ActorOf(l: Label): Option<nat> {
    match l
    case Tick(_) => None
    case Submit(_, _, _, _) => None
    case MarkUnknown(_) => None
    case Forget(_) => None
    case _ => Some(l.a)
  }

  /** The tenant on whose behalf an actor works: the one named when it last read an effect by id. */
  ghost function Serving(s: System, run: seq<Label>, a: nat): Option<string> {
    if run == [] then None
    else
      var before, l := After(s, run[..|run| - 1]), run[|run| - 1];
      if ActorOf(l) == Some(a) && (Fetches(l) || l.Claim?) && Pc(Next(before, l), a) != Pc(before, a) then
        if l.Claim? then None else Some(l.tenantId)
      else Serving(s, run[..|run| - 1], a)
  }

  /** An actor without anything to do, or with a record of one tenant. */
  predicate WorksFor(p: Actor, t: string) {
    match p
    case Idle => true
    case Ready(_, _) => false
    case Admitted(party, rec, _) => party.Reconciler? && rec.tenantId == t
    case Calling(party, rec, _, _) => party.Reconciler? && rec.tenantId == t
    case Reporting(party, rec, _, _, _) => party.Reconciler? && rec.tenantId == t
    case _ => p.rec.tenantId == t
  }

  /** A step changes effects of one tenant only. */
  ghost predicate Within(s: System, s': System, t: string) {
    && s'.ledger.entries.Keys == s.ledger.entries.Keys
    && forall id :: id in s.ledger.entries && s'.ledger.entries[id] != s.ledger.entries[id] ==> s.ledger.entries[id].record.tenantId == t
  }

  lemma SwapWithin(s: System, a: nat, rec: Record, target: Status, data: Metadata, won: Record -> Actor, lost: Actor, t: string)
    requires LedgerOk(s.ledger) && SnapOk(s.ledger, rec) && rec.tenantId == t
    requires WorksFor(lost, t) && forall moved: Record :: moved.tenantId == t ==> WorksFor(won(moved), t)
    ensures var s' := Swap(s, a, rec, target, data, won, lost);
            Within(s, s', t) && WorksFor(Pc(s', a), t)
  {
    hide LedgerOk, Allowed;
  }

  lemma AttemptWithin(s: System, a: nat, t: string)
    requires Inv(s) && WorksFor(Pc(s, a), t)
    ensures Within(s, DoAttempt(s, a), t) && WorksFor(Pc(DoAttempt(s, a), a), t)
  {
    hide LedgerOk, UniqueOwners, AttemptEntry;
    assert Pc(s, a).Admitted? ==> ActorOk(s.ledger, Pc(s, a));
  }

  lemma RouteWithin(s: System, a: nat, checkedAt: int, t: string)
    requires Inv(s) && WorksFor(Pc(s, a), t)
    ensures Within(s, DoRoute(s, a, checkedAt), t) && WorksFor(Pc(DoRoute(s, a, checkedAt), a), t)
  {
    hide LedgerOk, UniqueOwners, Swap, SnapOk, RetentionValid, ReasonData, Within;
    var p := Pc(s, a);
    WithinItself(s, t);
    if p.Routing? && checkedAt <= s.clock {
      assert ActorOk(s.ledger, p);
      var rec := p.rec;
      if RouteUnknown(rec.contract.safety) == Reconciling {
        SwapWithin(s, a, rec, Reconciling, ReasonData("authoritative_probe"), moved => Probing(moved), Idle, t);
      } else if RouteUnknown(rec.contract.safety) == ManualReview {
        SwapWithin(s, a, rec, ManualReview, ReasonData("unsafe_unknown"), _ => Idle, Idle, t);
      } else if RetentionValid(rec, checkedAt) {
        SwapWithin(s, a, rec, Dispatching, ReasonData("idempotent_redispatch"), moved => Admitted(Reconciler(checkedAt), moved, []), Idle, t);
      } else {
        SwapWithin(s, a, rec, ManualReview, ReasonData("idempotency_key_retention_expired"), _ => Idle, Idle, t);
      }
    }
  }

  lemma WithinItself(s: System, t: string)
    ensures Within(s, s, t)
  {
  }

  lemma ReportWithin(s: System, a: nat, t: string)
    requires Inv(s) && WorksFor(Pc(s, a), t)
    ensures Within(s, DoReport(s, a), t) && WorksFor(Pc(DoReport(s, a), a), t)
  {
    hide LedgerOk, UniqueOwners, Swap, SnapOk, Outcome, Within;
    var p := Pc(s, a);
    WithinItself(s, t);
    if p.Reporting? {
      assert ActorOk(s.ledger, p);
      var (target, data) := Outcome(p.party, p.rec, p.attemptId, p.answer);
      SwapWithin(s, a, p.rec, target, data, _ => Resume(p.party, p.rest), Idle, t);
    }
  }

  lemma JudgeWithin(s: System, a: nat, t: string)
    requires Inv(s) && WorksFor(Pc(s, a), t)
    ensures Within(s, DoJudge(s, a), t) && WorksFor(Pc(DoJudge(s, a), a), t)
  {
    hide LedgerOk, UniqueOwners, Swap, SnapOk, ProbedData, Within;
    var p := Pc(s, a);
    WithinItself(s, t);
    if p.Judging? {
      assert ActorOk(s.ledger, p);
      match p.verdict
      case ProvenCommitted(x) => SwapWithin(s, a, p.rec, Succeeded, ProbedData(x, p.evidence), _ => Idle, Idle, t);
      case ProvenAbsent => SwapWithin(s, a, p.rec, Prepared, map["evidence" := Json.JObj(p.evidence)], _ => Idle, Idle, t);
      case NoProof =>
        SwapWithin(s, a, p.rec, ManualReview, map["evidence" := Json.JObj(p.evidence), "reason" := Json.JStr("probe_unknown")],
                   _ => Idle, Idle, t);
    }
  }

  lemma OperatorWithin(s: System, a: nat, t: string)
    requires Inv(s) && WorksFor(Pc(s, a), t)
    ensures Within(s, DoCancel(s, a), t) && WorksFor(Pc(DoCancel(s, a), a), t)
    ensures Within(s, DoResolve(s, a), t) && WorksFor(Pc(DoResolve(s, a), a), t)
  {
    hide LedgerOk, UniqueOwners, Swap, SnapOk, Within;
    var p := Pc(s, a);
    WithinItself(s, t);
    if p.Cancelling? {
      assert ActorOk(s.ledger, p);
      SwapWithin(s, a, p.rec, Cancelled, p.data, _ => Idle, Idle, t);
    } else if p.Resolving? {
      assert ActorOk(s.ledger, p);
      SwapWithin(s, a, p.rec, p.resolution, p.data, _ => Idle, Idle, t);
    }
  }

  /** Steps that leave the ledger alone. */
  lemma PlainWithin(s: System, l: Label, a: nat, t: string)
    requires ActorOf(l) == Some(a) && WorksFor(Pc(s, a), t)
    requires l.Begin? || l.Call? || l.Probe? || l.Crash?
    ensures Within(s, Next(s, l), t) && WorksFor(Pc(Next(s, l), a), t)
  {
    hide Deliver, Truthful, Swap;
  }

  /** One step of an actor that works for a tenant, as long as it does not read or claim anew. */
  lemma OwnStepWithin(s: System, l: Label, a: nat, t: string)
    requires Inv(s) && WorksFor(Pc(s, a), t) && ActorOf(l) == Some(a) && !Fetches(l) && !l.Claim?
    ensures Within(s, Next(s, l), t) && WorksFor(Pc(Next(s, l), a), t)
  {
    hide Inv, Within, WorksFor, DoBegin, DoAttempt, DoCall, DoReport, DoRoute, DoProbe, DoJudge, DoCancel, DoResolve, Pc;
    match l
    case Attempt(_) => AttemptWithin(s, a, t);
    case Report(_) => ReportWithin(s, a, t);
    case Route(_, checkedAt) => RouteWithin(s, a, checkedAt, t);
    case Judge(_) => JudgeWithin(s, a, t);
    case Cancel(_) => OperatorWithin(s, a, t);
    case Resolve(_) => OperatorWithin(s, a, t);
    case _ => PlainWithin(s, l, a, t);
  }

  /** Nobody moves another actor. */
  lemma OthersStay(s: System, l: Label, a: nat)
    requires ActorOf(l) != Some(a)
    ensures Pc(Next(s, l), a) == Pc(s, a)
  {
    hide Commit, Truthful, Transition, StartAttempt, Reserve, ClaimAll, ClaimedRecords, Outcome, RetentionValid, ClaimEnabled, Get;
  }

  /** Reading by id: what an actor gets is of the tenant it names. */
  lemma FetchWorksFor(s: System, l: Label, a: nat)
    requires ActorOf(l) == Some(a) && Fetches(l) && Pc(Next(s, l), a) != Pc(s, a)
    ensures WorksFor(Pc(Next(s, l), a), l.tenantId)
    ensures Next(s, l).ledger == s.ledger
  {
  }

  lemma {:induction false} ServesOne(s: System, run: seq<Label>, a: nat)
    requires Inv(s)
    ensures Serving(s, run, a).Some? ==> WorksFor(Pc(After(s, run), a), Serving(s, run, a).value)
  {
    hide Inv, Next, Pc, WorksFor, Within;
    if run == [] {
    } else {
      var front, l := run[..|run| - 1], run[|run| - 1];
      ServesOne(s, front, a);
      RunKeeps(s, front);
      var before := After(s, front);
      if ActorOf(l) != Some(a) {
        OthersStay(before, l, a);
      } else if Pc(Next(before, l), a) != Pc(before, a) {
        if Fetches(l) {
          FetchWorksFor(before, l, a);
        } else if !l.Claim? && Serving(s, front, a).Some? {
          OwnStepWithin(before, l, a, Serving(s, front, a).value);
        }
      }
    }
  }

  /**
   * In every run, an actor that read for a tenant changes effects of that tenant only, and passes only such
   * effects to the target.
   */
  lemma TenantScope(secret: string, now: int, run: seq<Label>, l: Label, a: nat, id: string)
    requires Serving(Start(secret, now), run, a).Some? && ActorOf(l) == Some(a) && !l.Claim?
    ensures var t, s := Serving(Start(secret, now), run, a).value, After(Start(secret, now), run);
            var s' := Next(s, l);
            && s'.ledger.entries.Keys == s.ledger.entries.Keys
            && (id in s.ledger.entries && s'.ledger.entries[id] != s.ledger.entries[id] ==> s.ledger.entries[id].record.tenantId == t)
            && (s'.calls != s.calls ==>
                  Pc(s, a).Calling? && s'.calls == s.calls + [TargetCall(Pc(s, a).rec.effectId, Pc(s, a).rec.version)]
                  && Pc(s, a).rec.effectId in s.ledger.entries && s.ledger.entries[Pc(s, a).rec.effectId].record.tenantId == t)
  {
    hide Inv, Next, After, Pc;
    var s := After(Start(secret, now), run);
    StartOk(secret, now);
    RunKeeps(Start(secret, now), run);
    ServesOne(Start(secret, now), run, a);
    if Fetches(l) {
      FetchQuiet(s, l);
    } else {
      OwnStepWithin(s, l, a, Serving(Start(secret, now), run, a).value);
      CallsOwn(s, l, a, Serving(Start(secret, now), run, a).value);
    }
  }

  lemma FetchQuiet(s: System, l: Label)
    requires Fetches(l)
    ensures Next(s, l).ledger == s.ledger && Next(s, l).calls == s.calls
  {
  }

  lemma CallsOwn(s: System, l: Label, a: nat, t: string)
    requires Inv(s) && ActorOf(l) == Some(a) && !Fetches(l) && !l.Claim? && WorksFor(Pc(s, a), t)
    ensures Next(s, l).calls != s.calls ==>
              Pc(s, a).Calling? && Next(s, l).calls == s.calls + [TargetCall(Pc(s, a).rec.effectId, Pc(s, a).rec.version)]
              && Pc(s, a).rec.effectId in s.ledger.entries && s.ledger.entries[Pc(s, a).rec.effectId].record.tenantId == t
  {
    hide LedgerOk, UniqueOwners, Commit, Truthful, Transition, StartAttempt, Outcome, RetentionValid;
    assert Pc(s, a).Calling? ==> ActorOk(s.ledger, Pc(s, a));
  }
}
