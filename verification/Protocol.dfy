/**
 * The concurrent protocol: one shared ledger, one target, any number of actors. Each store method
 * and each adapter call is one atomic step; everything else interleaves. A run is any list of
 * labels: a label that does not apply leaves the system as it is.
 *
 * Workers follow src/effect_broker/worker.py, reconcilers src/effect_broker/reconcile.py,
 * submitters, cancellers and operators src/effect_broker/engine.py.
 */
module Protocol {
  import opened Prelude
  import opened Json
  import opened Identifiers
  import opened Identity
  import opened Models
  import opened StateMachine
  import opened Ledger
  import opened Target

  /** Who dispatches: a worker, or a reconciler that found the key retained at checkedAt. */
  datatype Party = Worker(workerId: string) | Reconciler(checkedAt: int)

  /** What an adapter call came back with. */
  datatype Answer =
    | Confirmed(externalId: string)
    | Unconfirmed
    | Ambiguous(error: string)
    | Rejected(error: string)

  /** An actor's program counter and the record snapshots it holds. */
  datatype Actor =
    | Idle
    | Ready(workerId: string, queue: seq<Record>)
    | Admitted(party: Party, rec: Record, rest: seq<Record>)
    | Calling(party: Party, rec: Record, attemptId: string, rest: seq<Record>)
    | Reporting(party: Party, rec: Record, attemptId: string, answer: Answer, rest: seq<Record>)
    | Routing(rec: Record)
    | Probing(rec: Record)
    | Judging(rec: Record, verdict: Verdict, evidence: Metadata)
    | Cancelling(rec: Record, data: Metadata)
    | Resolving(rec: Record, resolution: Status, data: Metadata)

  datatype Reply = Answered | Silent(error: string) | Vague

  /** What the world does with one adapter call. */
  datatype Delivery =
    | Land(reply: Reply)
    | LostOnTheWay(error: string)
    | NeverConfirmed
    | Refuse(error: string)

  /** The log of adapter calls: which dispatch, identified by effect and version, made the call. */
  datatype TargetCall = TargetCall(effectId: string, version: nat)

  datatype System = System(
    clock: int,
    ledger: Ledger,
    target: Target,
    actors: map<nat, Actor>,
    calls: seq<TargetCall>)

  datatype Label =
    | Tick(now: int)
    | Submit(id: string, tenantId: string, request: Request, contract: Contract)
    | Claim(a: nat, workerId: string, now: int, ids: seq<string>, leaseFor: int)
    | Begin(a: nat)
    | Attempt(a: nat)
    | Call(a: nat, delivery: Delivery)
    | Report(a: nat)
    | Fetch(a: nat, tenantId: string, id: string)
    | Route(a: nat, checkedAt: int)
    | Probe(a: nat, verdict: Verdict, evidence: Metadata)
    | Judge(a: nat)
    | FetchCancel(a: nat, tenantId: string, id: string, expected: nat, who: string, reason: string)
    | Cancel(a: nat)
    | FetchResolve(a: nat, tenantId: string, id: string, resolution: Status, evidence: Metadata)
    | Resolve(a: nat)
    | MarkUnknown(id: string)
    | Crash(a: nat)
    | Forget(key: DownstreamKey)

  function Start(secret: string, now: int): System {
    System(now, EmptyLedger(secret), EMPTY_TARGET, map[], [])
  }

  function Pc(s: System, a: nat): Actor {
    if a in s.actors then s.actors[a] else Idle
  }

  function Put(s: System, a: nat, p: Actor): System {
    s.(actors := s.actors[a := p])
  }

  // ---------------------------------------------------------------- recorded facts

  function WorkerData(workerId: string): Metadata {
    map["worker_id" := JStr(workerId)]
  }

  function ReasonData(reason: string): Metadata {
    map["reason" := JStr(reason)]
  }

  function CommittedData(attemptId: string, externalId: string): Metadata {
    map["attempt_id" := JStr(attemptId), "external_id" := JStr(externalId),
        "output" := JObj(map["external_id" := JStr(externalId)])]
  }

  function UnconfirmedData(attemptId: string): Metadata {
    map["attempt_id" := JStr(attemptId), "reason" := JStr("not_confirmed")]
  }

  function FailureData(attemptId: string, error: string, reason: string): Metadata {
    map["attempt_id" := JStr(attemptId), "error" := JStr(error), "reason" := JStr(reason)]
  }

  function ProbedData(externalId: string, evidence: Metadata): Metadata {
    map["external_id" := JStr(externalId), "output" := JObj(map["external_id" := JStr(externalId)]),
        "evidence" := JObj(evidence)]
  }

  function OperatorData(evidence: Metadata): Metadata {
    map["evidence" := JObj(evidence), "actor" := JStr("operator")]
  }

  function PartyName(party: Party): string {
    match party
    case Worker(id) => id
    case Reconciler(_) => "reconciler"
  }

  /** The status and facts an answer is recorded with. */
  function Outcome(party: Party, rec: Record, attemptId: string, answer: Answer): (Status, Metadata) {
    match answer
    case Confirmed(x) => (Succeeded, CommittedData(attemptId, x))
    case Unconfirmed => (OutcomeUnknown, UnconfirmedData(attemptId))
    case Ambiguous(error) =>
      (OutcomeUnknown,
       FailureData(attemptId, error, if party.Worker? then "ambiguous_dispatch" else "ambiguous_redispatch"))
    case Rejected(error) =>
      if party.Worker? then
        (if AttemptOrdinal(attemptId) < rec.contract.retryLimit then Retryable else FailedFinal,
         FailureData(attemptId, error, "proven_non_commit"))
      else (Retryable, FailureData(attemptId, error, "proven_non_commit_after_redispatch"))
  }

  /** The reconciler's retention check on a snapshot. */
  predicate RetentionValid(rec: Record, now: int) {
    rec.contract.keyRetention.Some? && now <= rec.createdAt + rec.contract.keyRetention.value
  }

  // ---------------------------------------------------------------- steps

  /** A compare-and-swap by an actor, continuing with one of two program counters. */
  function Swap(s: System, a: nat, rec: Record, target: Status, data: Metadata,
                won: Record -> Actor, lost: Actor): System
  {
    var (ledger, result) := Transition(s.ledger, rec.effectId, rec.version, target, data, s.clock);
    match result
    case Ok(moved) => Put(s.(ledger := ledger), a, won(moved))
    case Err(_) => Put(s, a, lost)
  }

  /** A worker goes on with its batch; a reconciler is done. */
  function Resume(party: Party, rest: seq<Record>): Actor {
    if party.Worker? && rest != [] then Ready(party.workerId, rest) else Idle
  }

  function DoSubmit(s: System, id: string, tenantId: string, request: Request, contract: Contract): System {
    if id in s.ledger.entries then s
    else s.(ledger := Reserve(s.ledger, id, tenantId, request, contract, s.clock).0)
  }

  predicate ClaimEnabled(s: System, a: nat, now: int, ids: seq<string>) {
    && Pc(s, a).Idle?
    && (forall i, j :: 0 <= i < j < |ids| ==> ids[i] != ids[j])
    && (forall id :: id in ids ==> id in s.ledger.entries && Due(s.ledger.entries[id], now))
  }

  /** A claim is made against the instant its caller passes. */
  function DoClaim(s: System, a: nat, workerId: string, now: int, ids: seq<string>, leaseFor: int): System {
    if !ClaimEnabled(s, a, now, ids) || ids == [] then s
    else
      Put(s.(ledger := ClaimAll(s.ledger, ids, workerId, now, leaseFor)), a,
          Ready(workerId, ClaimedRecords(s.ledger, ids, workerId, now, leaseFor)))
  }

  function DoBegin(s: System, a: nat): System {
    match Pc(s, a)
    case Ready(workerId, queue) =>
      if queue == [] then Put(s, a, Idle)
      else Swap(s, a, queue[0], Dispatching, WorkerData(workerId),
                rec => Admitted(Worker(workerId), rec, queue[1..]), Idle)
    case _ => s
  }

  function DoAttempt(s: System, a: nat): System {
    match Pc(s, a)
    case Admitted(party, rec, rest) =>
      var (ledger, result) := StartAttempt(s.ledger, rec.effectId, rec.version, PartyName(party), s.clock);
      (match result
       case Ok(attemptId) => Put(s.(ledger := ledger), a, Calling(party, rec, attemptId, rest))
       case Err(_) => Put(s, a, Idle))
    case _ => s
  }

  function AnswerTo(reply: Reply, externalId: string): Answer {
    match reply
    case Answered => Confirmed(externalId)
    case Silent(error) => Ambiguous(error)
    case Vague => Unconfirmed
  }

  /** One adapter call: what it does to the target, and what the caller sees. */
  function Deliver(t: Target, rec: Record, delivery: Delivery, now: int): (Target, Answer) {
    match delivery
    case Refuse(error) => (t, Rejected(error))
    case LostOnTheWay(error) => (t, Ambiguous(error))
    case NeverConfirmed => (t, Unconfirmed)
    case Land(reply) =>
      var (target, result) := Commit(t, rec, Dedupes(rec.contract.safety), now);
      (target,
       match result
       case Ok(charge) => AnswerTo(reply, charge.externalId)
       case Err(_) => Rejected("AdapterError"))
  }

  function DoCall(s: System, a: nat, delivery: Delivery): System {
    match Pc(s, a)
    case Calling(party, rec, attemptId, rest) =>
      var (target, answer) := Deliver(s.target, rec, delivery, s.clock);
      Put(s.(target := target, calls := s.calls + [TargetCall(rec.effectId, rec.version)]), a,
          Reporting(party, rec, attemptId, answer, rest))
    case _ => s
  }

  /**
   * A worker's failed write of a result is itself caught as ambiguity and tried once more as
   * OUTCOME_UNKNOWN, at the same stale version.
   */
  function DoReport(s: System, a: nat): System {
    match Pc(s, a)
    case Reporting(party, rec, attemptId, answer, rest) =>
      var (target, data) := Outcome(party, rec, attemptId, answer);
      var retry := party.Worker? && (answer.Confirmed? || answer.Unconfirmed?);
      Swap(s, a, rec, target, data, _ => Resume(party, rest),
           if retry then Reporting(party, rec, attemptId, Ambiguous("VersionConflictError"), rest) else Idle)
    case _ => s
  }

  function DoFetch(s: System, a: nat, tenantId: string, id: string): System {
    var found := Get(s.ledger, tenantId, id);
    if Pc(s, a).Idle? && found.Some? then Put(s, a, Routing(found.value)) else s
  }

  /** Retention is checked at some instant before the first write. */
  function DoRoute(s: System, a: nat, checkedAt: int): System {
    match Pc(s, a)
    case Routing(rec) =>
      if checkedAt > s.clock then s else
      (match RouteUnknown(rec.contract.safety)
       case Dispatching =>
         if !RetentionValid(rec, checkedAt) then
           Swap(s, a, rec, ManualReview, ReasonData("idempotency_key_retention_expired"), _ => Idle, Idle)
         else
           Swap(s, a, rec, Dispatching, ReasonData("idempotent_redispatch"),
                moved => Admitted(Reconciler(checkedAt), moved, []), Idle)
       case Reconciling =>
         Swap(s, a, rec, Reconciling, ReasonData("authoritative_probe"), moved => Probing(moved), Idle)
       case _ => Swap(s, a, rec, ManualReview, ReasonData("unsafe_unknown"), _ => Idle, Idle))
    case _ => s
  }

  ghost function DoProbe(s: System, a: nat, verdict: Verdict, evidence: Metadata): System {
    match Pc(s, a)
    case Probing(rec) =>
      if Truthful(s.target, rec, verdict) then Put(s, a, Judging(rec, verdict, evidence)) else s
    case _ => s
  }

  function DoJudge(s: System, a: nat): System {
    match Pc(s, a)
    case Judging(rec, verdict, evidence) =>
      (match verdict
       case ProvenCommitted(x) => Swap(s, a, rec, Succeeded, ProbedData(x, evidence), _ => Idle, Idle)
       case ProvenAbsent => Swap(s, a, rec, Prepared, map["evidence" := JObj(evidence)], _ => Idle, Idle)
       case NoProof =>
         Swap(s, a, rec, ManualReview,
              map["evidence" := JObj(evidence), "reason" := JStr("probe_unknown")], _ => Idle, Idle))
    case _ => s
  }

  function DoFetchCancel(s: System, a: nat, tenantId: string, id: string, expected: nat,
                         who: string, reason: string): System
  {
    var found := Get(s.ledger, tenantId, id);
    if Pc(s, a).Idle? && found.Some? && found.value.version == expected && Claimable(found.value.status) then
      Put(s, a, Cancelling(found.value, map["actor" := JStr(who), "reason" := JStr(reason)]))
    else s
  }

  function DoCancel(s: System, a: nat): System {
    match Pc(s, a)
    case Cancelling(rec, data) => Swap(s, a, rec, Cancelled, data, _ => Idle, Idle)
    case _ => s
  }

  function DoFetchResolve(s: System, a: nat, tenantId: string, id: string, resolution: Status,
                          evidence: Metadata): System
  {
    var found := Get(s.ledger, tenantId, id);
    if && Pc(s, a).Idle? && found.Some? && found.value.status == ManualReview
       && resolution in {Succeeded, FailedFinal, Compensated} then
      Put(s, a, Resolving(found.value, resolution, OperatorData(evidence)))
    else s
  }

  function DoResolve(s: System, a: nat): System {
    match Pc(s, a)
    case Resolving(rec, resolution, data) => Swap(s, a, rec, resolution, data, _ => Idle, Idle)
    case _ => s
  }

  function DoMarkUnknown(s: System, id: string): System {
    if id in s.ledger.entries && s.ledger.entries[id].record.status == Dispatching then
      s.(ledger := Transition(s.ledger, id, s.ledger.entries[id].record.version, OutcomeUnknown,
                              ReasonData("stale_dispatching_worker_died"), s.clock).0)
    else s
  }

  ghost function Next(s: System, l: Label): System {
    match l
    case Tick(now) => if now > s.clock then s.(clock := now) else s
    case Submit(id, tenantId, request, contract) => DoSubmit(s, id, tenantId, request, contract)
    case Claim(a, workerId, now, ids, leaseFor) => DoClaim(s, a, workerId, now, ids, leaseFor)
    case Begin(a) => DoBegin(s, a)
    case Attempt(a) => DoAttempt(s, a)
    case Call(a, delivery) => DoCall(s, a, delivery)
    case Report(a) => DoReport(s, a)
    case Fetch(a, tenantId, id) => DoFetch(s, a, tenantId, id)
    case Route(a, checkedAt) => DoRoute(s, a, checkedAt)
    case Probe(a, verdict, evidence) => DoProbe(s, a, verdict, evidence)
    case Judge(a) => DoJudge(s, a)
    case FetchCancel(a, tenantId, id, expected, who, reason) =>
      DoFetchCancel(s, a, tenantId, id, expected, who, reason)
    case Cancel(a) => DoCancel(s, a)
    case FetchResolve(a, tenantId, id, resolution, evidence) =>
      DoFetchResolve(s, a, tenantId, id, resolution, evidence)
    case Resolve(a) => DoResolve(s, a)
    case MarkUnknown(id) => DoMarkUnknown(s, id)
    case Crash(a) => Put(s, a, Idle)
    case Forget(key) => s.(target := ForgetKey(s.target, key))
  }

  /** The state a run ends in. */
  ghost function After(s: System, run: seq<Label>): System {
    if run == [] then s else Next(After(s, run[..|run| - 1]), run[|run| - 1])
  }

  lemma AfterStep(s: System, run: seq<Label>, l: Label)
    ensures After(s, run + [l]) == Next(After(s, run), l)
  {
    hide Next;
    assert (run + [l])[..|run|] == run;
  }

  lemma EmptyRun(s: System)
    ensures After(s, []) == s
  {
  }

  lemma {:induction false} AfterConcat(s: System, first: seq<Label>, second: seq<Label>)
    ensures After(s, first + second) == After(After(s, first), second)
    decreases |second|
  {
    hide Next;
    if second == [] {
      assert first + second == first;
    } else {
      var run := first + second;
      assert run[..|run| - 1] == first + second[..|second| - 1];
      AfterConcat(s, first, second[..|second| - 1]);
    }
  }

  // ---------------------------------------------------------------- hypotheses on runs

  /** Some actor is still about to call the target for the effect's current version. */
  ghost predicate CallPending(s: System, id: string) {
    exists a :: a in s.actors && s.actors[a].Calling? && s.actors[a].rec.effectId == id
                && id in s.ledger.entries && s.actors[a].rec.version == s.ledger.entries[id].record.version
  }

  /** An effect is given up as unknown only once its owner is gone or its call has returned. */
  ghost predicate OwnerGone(s: System, l: Label) {
    l.MarkUnknown? ==> !CallPending(s, l.id)
  }

  /** The documented meaning of AdapterError: no charge exists under the key. */
  ghost predicate ProvenNonCommit(s: System, l: Label) {
    l.Call? && l.delivery.Refuse? && Pc(s, l.a).Calling? ==>
      ChargesFor(s.target, Pc(s, l.a).rec.downstreamKey) == {}
  }

  /** A target that never forgets a key. */
  ghost predicate NeverForgets(s: System, l: Label) {
    !l.Forget?
  }

  /** A target that keeps a key for the whole declared retention of each charge. */
  ghost predicate ForgetsLate(s: System, l: Label) {
    l.Forget? ==>
      forall id, x :: id in s.ledger.entries && x in s.target.charges
                      && s.ledger.entries[id].record.downstreamKey == l.key
                      && s.target.charges[x].downstreamKey == l.key
                      && s.ledger.entries[id].record.contract.keyRetention.Some? ==>
        s.clock > s.target.charges[x].committedAt + s.ledger.entries[id].record.contract.keyRetention.value
  }

  /** A redispatch lands while its key is still retained, counted from creation. */
  ghost predicate InTime(s: System, l: Label) {
    l.Call? && Pc(s, l.a).Calling? && Pc(s, l.a).party.Reconciler? ==>
      var rec := Pc(s, l.a).rec;
      rec.contract.keyRetention.Some? && s.clock <= rec.createdAt + rec.contract.keyRetention.value
  }

  /** A redispatch lands at the instant its retention check was made. */
  ghost predicate PromptRedispatch(s: System, l: Label) {
    l.Call? && Pc(s, l.a).Calling? && Pc(s, l.a).party.Reconciler? ==> s.clock == Pc(s, l.a).party.checkedAt
  }

  /** Contracts come from a validated registry. */
  ghost predicate ValidContracts(s: System, l: Label) {
    l.Submit? ==> ValidateContract(l.contract).None?
  }

  /** A hypothesis holds at every step of a run. */
  ghost predicate Throughout(h: (System, Label) -> bool, s: System, run: seq<Label>) {
    run == [] ||
    (Throughout(h, s, run[..|run| - 1]) && h(After(s, run[..|run| - 1]), run[|run| - 1]))
  }
}
