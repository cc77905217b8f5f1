/**
 * The eighteen labels reduced to nine kinds of change, each described exactly. Every later
 * invariant is proved against these kinds.
 */
module ProtocolSteps {
  import opened Prelude
  import Json
  import opened Models
  import opened StateMachine
  import opened Ledger
  import opened LedgerProofs
  import opened Target
  import opened Protocol
  import opened ProtocolInvariant

  datatype Kind =
    | Nothing
    | Ticked(now: int)
    | Forgot(key: Identity.DownstreamKey)
    | Quiet(a: nat, p: Actor)
    | Submitted(id: string, e: Entry)
    | Batch(a: nat, workerId: string, now: int, ids: seq<string>, leaseFor: int)
    | Wrote(a: nat, rec: Record, target: Status, data: Metadata, p: Actor)
    | Marked(id: string)
    | Started(a: nat)
    | Called(a: nat, delivery: Delivery)

  import Identity
  import Identifiers

  /** The record an effect has now. */
  function Current(s: System, id: string): Record
    requires id in s.ledger.entries
  {
    s.ledger.entries[id].record
  }

  /** Program counter changes that touch neither ledger nor target. */
  ghost predicate QuietMove(s: System, was: Actor, p: Actor) {
    || p.Idle?
    || (was.Idle? && (p.Routing? || p.Cancelling? || p.Resolving?)
        && p.rec.effectId in s.ledger.entries && p.rec == Current(s, p.rec.effectId)
        && ActorOk(s.ledger, p))
    || (was.Probing? && p.Judging? && p.rec == was.rec && Truthful(s.target, p.rec, p.verdict))
    || (was.Reporting? && was.party.Worker? && p == was.(answer := Ambiguous("VersionConflictError")))
  }

  /** Which status each actor may write over the record it holds, and where it goes next. */
  ghost predicate MayWrite(p: Actor, rec: Record, target: Status, data: Metadata, moved: Record, next: Actor) {
    match p
    case Ready(workerId, queue) =>
      && queue != [] && rec == queue[0] && target == Dispatching
      && next == Admitted(Worker(workerId), moved, queue[1..])
    case Reporting(party, r, attemptId, answer, rest) =>
      rec == r && (target, data) == Outcome(party, r, attemptId, answer) && next == Resume(party, rest)
    case Routing(r) =>
      && rec == r
      && (match r.contract.safety
          case Idempotent =>
            || (target == ManualReview && next == Idle)
            || (target == Dispatching && next.Admitted? && next.party.Reconciler?
                && RetentionValid(r, next.party.checkedAt) && next == Admitted(next.party, moved, []))
          case Unsafe => target == ManualReview && next == Idle
          case _ => target == Reconciling && next == Probing(moved))
    case Judging(r, verdict, evidence) =>
      && rec == r && next == Idle
      && (match verdict
          case ProvenCommitted(x) => target == Succeeded && data == ProbedData(x, evidence)
          case ProvenAbsent => target == Prepared
          case NoProof => target == ManualReview)
    case Cancelling(r, d) => rec == r && target == Cancelled && data == d && next == Idle
    case Resolving(r, resolution, d) => rec == r && target == resolution && data == d && next == Idle
    case _ => false
  }

  function MovedLedger(s: System, id: string, target: Status, data: Metadata): Ledger
    requires id in s.ledger.entries
  {
    s.ledger.(entries := s.ledger.entries[id := MoveEntry(s.ledger.entries[id], target, data, s.clock)])
  }

  ghost predicate Is(s: System, s': System, k: Kind) {
    match k
    case Nothing => s' == s
    case Ticked(now) => now > s.clock && s' == s.(clock := now)
    case Forgot(key) => s' == s.(target := ForgetKey(s.target, key))
    case Quiet(a, p) => s' == Put(s, a, p) && QuietMove(s, Pc(s, a), p)
    case Submitted(id, e) =>
      && id !in s.ledger.entries && OperationOf(e.record) !in s.ledger.identity
      && EntryOk(s.ledger.secret, id, e)
      && e == NewEntry(e.record) && e.record.status == Prepared && e.record.version == 0
      && e.record.createdAt == s.clock
      && s' == s.(ledger := Inserted(s.ledger, id, e))
    case Batch(a, workerId, now, ids, leaseFor) =>
      ClaimEnabled(s, a, now, ids) && ids != [] && s' == DoClaim(s, a, workerId, now, ids, leaseFor)
    case Wrote(a, rec, target, data, p) =>
      && rec.effectId in s.ledger.entries && rec == Current(s, rec.effectId)
      && Allowed(rec.status, target)
      && s' == Put(s.(ledger := MovedLedger(s, rec.effectId, target, data)), a, p)
      && MayWrite(Pc(s, a), rec, target, data,
                  MovedLedger(s, rec.effectId, target, data).entries[rec.effectId].record, p)
    case Marked(id) =>
      && id in s.ledger.entries && Current(s, id).status == Dispatching
      && s' == s.(ledger := MovedLedger(s, id, OutcomeUnknown, ReasonData("stale_dispatching_worker_died")))
    case Started(a) =>
      var p := Pc(s, a);
      && p.Admitted? && p.rec.effectId in s.ledger.entries && p.rec == Current(s, p.rec.effectId)
      && (var e := AttemptEntry(s.ledger.entries[p.rec.effectId], PartyName(p.party), s.clock);
          s' == Put(s.(ledger := s.ledger.(entries := s.ledger.entries[p.rec.effectId := e])), a,
                    Calling(p.party, p.rec, e.attempts[|e.attempts| - 1].attemptId, p.rest)))
    case Called(a, delivery) => Pc(s, a).Calling? && s' == DoCall(s, a, delivery)
  }

  /** What a kind says about the label it came from. */
  predicate Matches(l: Label, k: Kind) {
    && (k.Forgot? ==> l == Forget(k.key))
    && (k.Marked? ==> l == MarkUnknown(k.id))
    && (k.Called? ==> l == Call(k.a, k.delivery))
    && (k.Submitted? ==> l.Submit? && l.contract == k.e.record.contract)
  }

  /** The record a writer holds, what it writes and what it goes on with. */
  ghost predicate WriterOk(p: Actor, rec: Record, target: Status, next: Actor) {
    match p
    case Ready(_, _) =>
      Claimable(rec.status) && target == Dispatching && next.Admitted? && next.party.Worker?
    case Reporting(party, r, _, answer, _) =>
      && rec == r && rec.status == Dispatching && (next.Idle? || next.Ready?)
      && (party.Reconciler? ==> rec.contract.safety == Idempotent)
      && (target == Retryable ==> answer.Rejected? && (party.Worker? ==> rec.contract.retryLimit > 0))
      && target in {Succeeded, OutcomeUnknown, Retryable, FailedFinal}
      && (target == Succeeded ==> answer.Confirmed?)
    case Routing(_) =>
      && (target == Dispatching ==>
            rec.contract.safety == Idempotent && next.Admitted? && next.party.Reconciler?)
      && (target == Reconciling ==> rec.contract.safety in {Reconcilable, Transactional} && next.Probing?)
      && target in {Dispatching, Reconciling, ManualReview}
      && (target == ManualReview ==> next.Idle?)
    case Judging(r, verdict, _) =>
      && rec == r && Probed(rec) && next.Idle?
      && (target == Prepared <==> verdict.ProvenAbsent?)
      && (target == Succeeded <==> verdict.ProvenCommitted?)
      && target in {Prepared, Succeeded, ManualReview}
    case Cancelling(_, _) => Claimable(rec.status) && target == Cancelled && next.Idle?
    case Resolving(_, _, _) => rec.status == ManualReview && target in {Succeeded, FailedFinal, Compensated} && next.Idle?
    case _ => false
  }

  lemma WriterFacts(s: System, s': System, k: Kind)
    requires Inv(s) && Is(s, s', k) && k.Wrote?
    ensures WriterOk(Pc(s, k.a), k.rec, k.target, k.p)
    ensures k.rec.effectId in s.ledger.entries && k.rec == Current(s, k.rec.effectId)
    ensures Allowed(k.rec.status, k.target)
    ensures Owns(k.p) ==> k.p.rec == MovedLedger(s, k.rec.effectId, k.target, k.data).entries[k.rec.effectId].record
    ensures s' == Put(s.(ledger := MovedLedger(s, k.rec.effectId, k.target, k.data)), k.a, k.p)
  {
    hide LedgerOk, UniqueOwners, SnapOk, MoveEntry, RetentionValid, ProbedData, Allowed;
    assert ActorOk(s.ledger, Pc(s, k.a));
    OutcomeFacts(Pc(s, k.a));
  }

  lemma OutcomeFacts(p: Actor)
    ensures p.Reporting? ==>
              var target := Outcome(p.party, p.rec, p.attemptId, p.answer).0;
              && target in {Succeeded, OutcomeUnknown, Retryable, FailedFinal}
              && (target == Succeeded ==> p.answer.Confirmed?)
              && (target == Retryable ==> p.answer.Rejected? && (p.party.Worker? ==> p.rec.contract.retryLimit > 0))
  {
    if p.Reporting? {
      OrdinalNotNegative(p.attemptId);
    }
  }

  lemma OrdinalNotNegative(attemptId: string)
    ensures Identifiers.AttemptOrdinal(attemptId) >= 0
  {
  }

  lemma SwapKind(s: System, a: nat, rec: Record, target: Status, data: Metadata,
                 won: Record -> Actor, lost: Actor) returns (k: Kind)
    requires Inv(s) && SnapOk(s.ledger, rec)
    requires QuietMove(s, Pc(s, a), lost)
    requires forall moved: Record :: MayWrite(Pc(s, a), rec, target, data, moved, won(moved))
    ensures Is(s, Swap(s, a, rec, target, data, won, lost), k)
    ensures k.Quiet? || k.Wrote?
  {
    hide LedgerOk, ActorsOk, UniqueOwners, MayWrite, QuietMove, MoveEntry, Allowed;
    var (l, result) := Transition(s.ledger, rec.effectId, rec.version, target, data, s.clock);
    if result.Ok? {
      MovedRecord(s.ledger, rec.effectId, rec.version, target, data, s.clock);
      assert l == MovedLedger(s, rec.effectId, target, data);
      k := Wrote(a, rec, target, data, won(result.value));
    } else {
      k := Quiet(a, lost);
    }
  }

  lemma BeginKind(s: System, a: nat) returns (k: Kind)
    requires Inv(s)
    ensures Is(s, DoBegin(s, a), k) && (k.Quiet? || k.Wrote? || k.Nothing?)
  {
    hide LedgerOk, UniqueOwners, SnapOk, Swap;
    var p := Pc(s, a);
    if p.Ready? {
      assert ActorOk(s.ledger, p);
      assert SnapOk(s.ledger, p.queue[0]);
      k := SwapKind(s, a, p.queue[0], Dispatching, WorkerData(p.workerId),
                    rec => Admitted(Worker(p.workerId), rec, p.queue[1..]), Idle);
    } else {
      k := Nothing;
    }
  }

  lemma AttemptKind(s: System, a: nat) returns (k: Kind)
    requires Inv(s)
    ensures Is(s, DoAttempt(s, a), k) && (k.Quiet? || k.Started? || k.Nothing?)
  {
    hide LedgerOk, UniqueOwners;
    var p := Pc(s, a);
    if p.Admitted? {
      assert ActorOk(s.ledger, p);
      if StartAttempt(s.ledger, p.rec.effectId, p.rec.version, PartyName(p.party), s.clock).1.Ok? {
        k := Started(a);
      } else {
        k := Quiet(a, Idle);
      }
    } else {
      k := Nothing;
    }
  }

  lemma ReportKind(s: System, a: nat) returns (k: Kind)
    requires Inv(s)
    ensures Is(s, DoReport(s, a), k) && (k.Quiet? || k.Wrote? || k.Nothing?)
  {
    hide LedgerOk, UniqueOwners, SnapOk, Swap, Outcome;
    var p := Pc(s, a);
    if p.Reporting? {
      assert ActorOk(s.ledger, p);
      var (target, data) := Outcome(p.party, p.rec, p.attemptId, p.answer);
      var lost := if p.party.Worker? && (p.answer.Confirmed? || p.answer.Unconfirmed?)
        then Reporting(p.party, p.rec, p.attemptId, Ambiguous("VersionConflictError"), p.rest) else Idle;
      k := SwapKind(s, a, p.rec, target, data, _ => Resume(p.party, p.rest), lost);
    } else {
      k := Nothing;
    }
  }

  lemma RouteKind(s: System, a: nat, checkedAt: int) returns (k: Kind)
    requires Inv(s)
    ensures Is(s, DoRoute(s, a, checkedAt), k) && (k.Quiet? || k.Wrote? || k.Nothing?)
  {
    hide LedgerOk, UniqueOwners, SnapOk, Swap;
    var p := Pc(s, a);
    if p.Routing? && checkedAt <= s.clock {
      assert ActorOk(s.ledger, p);
      var rec := p.rec;
      if rec.contract.safety == Idempotent && RetentionValid(rec, checkedAt) {
        k := SwapKind(s, a, rec, Dispatching, ReasonData("idempotent_redispatch"),
                      moved => Admitted(Reconciler(checkedAt), moved, []), Idle);
      } else if rec.contract.safety == Idempotent {
        k := SwapKind(s, a, rec, ManualReview, ReasonData("idempotency_key_retention_expired"), _ => Idle, Idle);
      } else if rec.contract.safety == Unsafe {
        k := SwapKind(s, a, rec, ManualReview, ReasonData("unsafe_unknown"), _ => Idle, Idle);
      } else {
        k := SwapKind(s, a, rec, Reconciling, ReasonData("authoritative_probe"), moved => Probing(moved), Idle);
      }
    } else {
      k := Nothing;
    }
  }

  lemma JudgeKind(s: System, a: nat) returns (k: Kind)
    requires Inv(s)
    ensures Is(s, DoJudge(s, a), k) && (k.Quiet? || k.Wrote? || k.Nothing?)
  {
    hide LedgerOk, UniqueOwners, SnapOk, Swap, ProbedData;
    var p := Pc(s, a);
    if p.Judging? {
      assert ActorOk(s.ledger, p);
      match p.verdict
      case ProvenCommitted(x) =>
        k := SwapKind(s, a, p.rec, Succeeded, ProbedData(x, p.evidence), _ => Idle, Idle);
      case ProvenAbsent =>
        k := SwapKind(s, a, p.rec, Prepared, map["evidence" := Json.JObj(p.evidence)], _ => Idle, Idle);
      case NoProof =>
        k := SwapKind(s, a, p.rec, ManualReview,
                      map["evidence" := Json.JObj(p.evidence), "reason" := Json.JStr("probe_unknown")],
                      _ => Idle, Idle);
    } else {
      k := Nothing;
    }
  }

  lemma OperatorKind(s: System, a: nat) returns (cancel: Kind, resolve: Kind)
    requires Inv(s)
    ensures Is(s, DoCancel(s, a), cancel) && (cancel.Quiet? || cancel.Wrote? || cancel.Nothing?)
    ensures Is(s, DoResolve(s, a), resolve) && (resolve.Quiet? || resolve.Wrote? || resolve.Nothing?)
  {
    hide LedgerOk, UniqueOwners, SnapOk, Swap;
    var p := Pc(s, a);
    cancel, resolve := Nothing, Nothing;
    if p.Cancelling? {
      assert ActorOk(s.ledger, p);
      cancel := SwapKind(s, a, p.rec, Cancelled, p.data, _ => Idle, Idle);
    } else if p.Resolving? {
      assert ActorOk(s.ledger, p);
      resolve := SwapKind(s, a, p.rec, p.resolution, p.data, _ => Idle, Idle);
    }
  }

  lemma SubmitKind(s: System, id: string, tenantId: string, request: Request, contract: Contract) returns (k: Kind)
    requires Inv(s)
    ensures Is(s, DoSubmit(s, id, tenantId, request, contract), k)
    ensures k.Nothing? || (k.Submitted? && k.e.record.contract == contract)
  {
    hide ActorsOk, UniqueOwners, Identity.RequestHash, Identity.OperationKeyOf, LogOk, AttemptsOk;
    var (l, r) := Reserve(s.ledger, id, tenantId, request, contract, s.clock);
    if id !in s.ledger.entries && r.Ok? && r.value.created {
      var e := NewEntry(r.value.effect);
      NewEntryOk(s.ledger.secret, id, tenantId, request, r.value.effect.requestHash, contract, s.clock);
      assert l == Inserted(s.ledger, id, e);
      k := Submitted(id, e);
    } else {
      k := Nothing;
    }
  }

  lemma FetchKind(s: System, l: Label) returns (k: Kind)
    requires Inv(s) && (l.Fetch? || l.FetchCancel? || l.FetchResolve?)
    ensures Is(s, Next(s, l), k) && (k.Nothing? || k.Quiet?)
  {
    hide LedgerOk, ActorsOk, UniqueOwners, SnapOk;
    k := Nothing;
    if Next(s, l) != s {
      CurrentSnap(s.ledger, l.id);
      k := Quiet(l.a, Pc(Next(s, l), l.a));
    }
  }

  lemma MarkKind(s: System, id: string) returns (k: Kind)
    requires Inv(s)
    ensures Is(s, DoMarkUnknown(s, id), k) && (k.Nothing? || k == Marked(id))
  {
    hide ActorsOk, UniqueOwners, EntryOk, IdentityOk, OrderOk;
    k := Nothing;
    if id in s.ledger.entries && Current(s, id).status == Dispatching {
      k := Marked(id);
    }
  }

  lemma ProbeKind(s: System, a: nat, verdict: Verdict, evidence: Metadata) returns (k: Kind)
    ensures Is(s, DoProbe(s, a, verdict, evidence), k) && (k.Nothing? || k.Quiet?)
  {
    hide Truthful;
    var p := Pc(s, a);
    k := if p.Probing? && Truthful(s.target, p.rec, verdict) then Quiet(a, Judging(p.rec, verdict, evidence))
         else Nothing;
  }

  /** Every step of a reachable system is of exactly described kind. */
  lemma Classify(s: System, l: Label) returns (k: Kind)
    requires Inv(s)
    ensures Is(s, Next(s, l), k) && Matches(l, k)
  {
    hide Inv, Is, DoSubmit, DoClaim, DoBegin, DoAttempt, DoCall, DoReport, DoFetch, DoRoute, DoProbe, DoJudge,
         DoFetchCancel, DoCancel, DoFetchResolve, DoResolve, DoMarkUnknown;
    match l
    case Submit(id, tenantId, request, contract) => k := SubmitKind(s, id, tenantId, request, contract);
    case Begin(a) => k := BeginKind(s, a);
    case Attempt(a) => k := AttemptKind(s, a);
    case Report(a) => k := ReportKind(s, a);
    case Fetch(_, _, _) => k := FetchKind(s, l);
    case Route(a, checkedAt) => k := RouteKind(s, a, checkedAt);
    case Probe(a, verdict, evidence) => k := ProbeKind(s, a, verdict, evidence);
    case Judge(a) => k := JudgeKind(s, a);
    case FetchCancel(_, _, _, _, _, _) => k := FetchKind(s, l);
    case Cancel(a) => var cancel, resolve := OperatorKind(s, a); k := cancel;
    case FetchResolve(_, _, _, _, _) => k := FetchKind(s, l);
    case Resolve(a) => var cancel, resolve := OperatorKind(s, a); k := resolve;
    case MarkUnknown(id) => k := MarkKind(s, id);
    case _ => k := PlainKind(s, l);
  }

  lemma PlainKind(s: System, l: Label) returns (k: Kind)
    requires l.Tick? || l.Claim? || l.Call? || l.Crash? || l.Forget?
    ensures Is(s, Next(s, l), k) && Matches(l, k)
  {
    match l
    case Tick(now) => k := if now > s.clock then Ticked(now) else Nothing;
    case Claim(a, workerId, now, ids, leaseFor) =>
      k := if ClaimEnabled(s, a, now, ids) && ids != [] then Batch(a, workerId, now, ids, leaseFor) else Nothing;
    case Call(a, delivery) => k := if Pc(s, a).Calling? then Called(a, delivery) else Nothing;
    case Crash(a) => k := Quiet(a, Idle);
    case Forget(key) => k := Forgot(key);
  }
}
