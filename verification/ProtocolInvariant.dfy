/** The base invariant of the protocol: snapshots are honest, and each version has one owner. */
module ProtocolInvariant {
  import opened Prelude
  import Json
  import opened Identifiers
  import opened Models
  import opened StateMachine
  import opened Ledger
  import opened LedgerProofs
  import opened Target
  import opened Protocol

  /** A snapshot is of a known effect, never from the future, and exact while its version is current. */
  ghost predicate SnapOk(l: Ledger, r: Record) {
    && r.effectId in l.entries
    && SamePinned(r, l.entries[r.effectId].record)
    && r.version <= l.entries[r.effectId].record.version
    && (r.version == l.entries[r.effectId].record.version ==> r == l.entries[r.effectId].record)
  }

  ghost predicate QueueOk(l: Ledger, queue: seq<Record>) {
    forall i :: 0 <= i < |queue| ==> SnapOk(l, queue[i]) && Claimable(queue[i].status)
  }

  /** A dispatching party holds the DISPATCHING record; a reconciler's effect is idempotent and was retained. */
  ghost predicate PartyOk(party: Party, rec: Record) {
    && rec.status == Dispatching
    && (party.Reconciler? ==> rec.contract.safety == Idempotent && RetentionValid(rec, party.checkedAt))
  }

  predicate Probed(rec: Record) {
    rec.status == Reconciling && rec.contract.safety in {Reconcilable, Transactional}
  }

  ghost predicate ActorOk(l: Ledger, p: Actor) {
    match p
    case Idle => true
    case Ready(_, queue) => queue != [] && QueueOk(l, queue)
    case Admitted(party, rec, rest) => SnapOk(l, rec) && PartyOk(party, rec) && QueueOk(l, rest)
    case Calling(party, rec, _, rest) => SnapOk(l, rec) && PartyOk(party, rec) && QueueOk(l, rest)
    case Reporting(party, rec, _, _, rest) => SnapOk(l, rec) && PartyOk(party, rec) && QueueOk(l, rest)
    case Routing(rec) => SnapOk(l, rec)
    case Probing(rec) => SnapOk(l, rec) && Probed(rec)
    case Judging(rec, _, _) => SnapOk(l, rec) && Probed(rec)
    case Cancelling(rec, _) => SnapOk(l, rec) && Claimable(rec.status)
    case Resolving(rec, resolution, data) =>
      && SnapOk(l, rec) && rec.status == ManualReview
      && resolution in {Succeeded, FailedFinal, Compensated}
      && exists evidence :: data == OperatorData(evidence)
  }

  /** Actors that own a version: they made the transition that created it. */
  predicate Owns(p: Actor) {
    p.Admitted? || p.Calling? || p.Reporting? || p.Probing? || p.Judging?
  }

  predicate SameVersion(r: Record, r': Record) {
    r.effectId == r'.effectId && r.version == r'.version
  }

  ghost predicate UniqueOwners(s: System) {
    forall a, b :: a in s.actors && b in s.actors && a != b && Owns(s.actors[a]) && Owns(s.actors[b]) ==>
      !SameVersion(s.actors[a].rec, s.actors[b].rec)
  }

  ghost predicate ActorsOk(s: System) {
    forall a :: a in s.actors ==> ActorOk(s.ledger, s.actors[a])
  }

  ghost predicate Inv(s: System) {
    LedgerOk(s.ledger) && ActorsOk(s) && UniqueOwners(s)
  }

  // ---------------------------------------------------------------- monotonicity

  lemma SnapMonotone(l: Ledger, l': Ledger, r: Record)
    requires Grows(l, l') && SnapOk(l, r)
    ensures SnapOk(l', r)
  {
    assert EntryGrows(l.entries[r.effectId], l'.entries[r.effectId]);
  }

  lemma ActorMonotone(l: Ledger, l': Ledger, p: Actor)
    requires Grows(l, l') && ActorOk(l, p)
    ensures ActorOk(l', p)
  {
    hide Grows, SnapOk;
    if p.Ready? {
      QueueMonotone(l, l', p.queue);
    } else if p.Admitted? || p.Calling? || p.Reporting? {
      SnapMonotone(l, l', p.rec);
      QueueMonotone(l, l', p.rest);
    } else if !p.Idle? {
      SnapMonotone(l, l', p.rec);
    }
  }

  lemma QueueMonotone(l: Ledger, l': Ledger, queue: seq<Record>)
    requires Grows(l, l') && QueueOk(l, queue)
    ensures QueueOk(l', queue)
  {
    hide Grows, SnapOk;
    forall i | 0 <= i < |queue|
      ensures SnapOk(l', queue[i]) && Claimable(queue[i].status)
    {
      SnapMonotone(l, l', queue[i]);
    }
  }

  /** A snapshot taken now. */
  lemma CurrentSnap(l: Ledger, id: string)
    requires LedgerOk(l) && id in l.entries
    ensures SnapOk(l, l.entries[id].record) && l.entries[id].record.effectId == id
  {
    EntryFacts(l, id);
  }

  // ---------------------------------------------------------------- one actor's step

  /** The version an actor newly owns was not held by anyone before. */
  ghost predicate NewlyOwned(s: System, r: Record) {
    r.effectId in s.ledger.entries && r.version > s.ledger.entries[r.effectId].record.version
  }

  /** One actor moves on while the ledger grows; everyone else only waits. */
  lemma ActorStepKeeps(s: System, s': System, a: nat, p: Actor)
    requires Inv(s)
    requires s'.actors == s.actors[a := p]
    requires LedgerOk(s'.ledger) && Grows(s.ledger, s'.ledger) && ActorOk(s'.ledger, p)
    requires Owns(p) ==>
               || NewlyOwned(s, p.rec)
               || (a in s.actors && Owns(s.actors[a]) && SameVersion(s.actors[a].rec, p.rec))
    ensures Inv(s')
  {
    hide LedgerOk, Grows, ActorOk, SnapOk;
    forall b | b in s'.actors
      ensures ActorOk(s'.ledger, s'.actors[b])
    {
      if b != a {
        ActorMonotone(s.ledger, s'.ledger, s.actors[b]);
      }
    }
    forall b | b in s.actors && b != a && Owns(p) && Owns(s.actors[b])
      ensures !SameVersion(s.actors[b].rec, p.rec)
    {
      OwnerSnap(s, b);
    }
  }

  lemma OwnerSnap(s: System, b: nat)
    requires ActorsOk(s) && b in s.actors && Owns(s.actors[b])
    ensures SnapOk(s.ledger, s.actors[b].rec)
    ensures s.actors[b].rec.effectId in s.ledger.entries
    ensures s.actors[b].rec.version <= s.ledger.entries[s.actors[b].rec.effectId].record.version
  {
    assert ActorOk(s.ledger, s.actors[b]);
  }

  /** The ledger grows and no actor moves. */
  lemma LedgerStepKeeps(s: System, s': System)
    requires Inv(s)
    requires s'.actors == s.actors
    requires LedgerOk(s'.ledger) && Grows(s.ledger, s'.ledger)
    ensures Inv(s')
  {
    hide LedgerOk, Grows, ActorOk;
    forall b | b in s'.actors
      ensures ActorOk(s'.ledger, s'.actors[b])
    {
      ActorMonotone(s.ledger, s'.ledger, s.actors[b]);
    }
  }

  /** A compare-and-swap keeps the invariant when the winner's continuation owns the new version. */
  lemma SwapKeeps(s: System, a: nat, rec: Record, target: Status, data: Metadata, won: Record -> Actor, lost: Actor)
    requires Inv(s) && SnapOk(s.ledger, rec)
    requires forall moved: Record, l: Ledger ::
               SnapOk(l, moved) && Grows(s.ledger, l) && SamePinned(rec, moved) && moved.status == target ==>
                 ActorOk(l, won(moved)) && (Owns(won(moved)) ==> won(moved).rec == moved)
    requires ActorOk(s.ledger, lost)
    requires Owns(lost) ==> a in s.actors && Owns(s.actors[a]) && SameVersion(s.actors[a].rec, lost.rec)
    ensures Inv(Swap(s, a, rec, target, data, won, lost))
  {
    hide LedgerOk, Grows, ActorOk, MoveEntry, Allowed;
    TransitionKeepsLedger(s.ledger, rec.effectId, rec.version, target, data, s.clock);
    UnchangedGrows(s.ledger);
    var (l, result) := Transition(s.ledger, rec.effectId, rec.version, target, data, s.clock);
    match result
    case Err(_) => ActorStepKeeps(s, Swap(s, a, rec, target, data, won, lost), a, lost);
    case Ok(moved) =>
      MovedRecord(s.ledger, rec.effectId, rec.version, target, data, s.clock);
      CurrentSnap(l, rec.effectId);
      ActorStepKeeps(s, Swap(s, a, rec, target, data, won, lost), a, won(moved));
  }

  /** What a successful transition returns. */
  lemma MovedRecord(l: Ledger, id: string, expected: nat, target: Status, data: Metadata, now: int)
    requires LedgerOk(l) && Transition(l, id, expected, target, data, now).1.Ok?
    ensures var (l', r) := Transition(l, id, expected, target, data, now);
            && id in l.entries && id in l'.entries
            && l.entries[id].record.version == expected
            && Allowed(l.entries[id].record.status, target)
            && l'.entries[id] == MoveEntry(l.entries[id], target, data, now)
            && l' == l.(entries := l.entries[id := l'.entries[id]])
            && r.value == l'.entries[id].record
            && r.value.status == target
            && r.value.version == expected + 1
            && r.value.effectId == id
            && SamePinned(l.entries[id].record, r.value)
  {
    EntryFacts(l, id);
  }

  // ---------------------------------------------------------------- every step

  lemma SubmitKeeps(s: System, id: string, tenantId: string, request: Request, contract: Contract)
    requires Inv(s)
    ensures Inv(DoSubmit(s, id, tenantId, request, contract))
  {
    hide LedgerOk, ActorOk, Reserve, Grows;
    if id !in s.ledger.entries {
      ReserveKeepsLedger(s.ledger, id, tenantId, request, contract, s.clock);
      LedgerStepKeeps(s, DoSubmit(s, id, tenantId, request, contract));
    }
  }

  lemma ClaimKeeps(s: System, a: nat, workerId: string, now: int, ids: seq<string>, leaseFor: int)
    requires Inv(s)
    ensures Inv(DoClaim(s, a, workerId, now, ids, leaseFor))
  {
    hide LedgerOk, Grows, Due, ActorsOk, UniqueOwners, SnapOk, ClaimAll, ClaimEntry;
    if ClaimEnabled(s, a, now, ids) && ids != [] {
      var ledger := ClaimAll(s.ledger, ids, workerId, now, leaseFor);
      ClaimAllKeepsLedger(s.ledger, ids, workerId, now, leaseFor);
      var queue := ClaimedRecords(s.ledger, ids, workerId, now, leaseFor);
      forall i | 0 <= i < |queue|
        ensures SnapOk(ledger, queue[i]) && Claimable(queue[i].status)
      {
        assert ids[i] in ids;
        ClaimedRecord(s.ledger, ids, workerId, now, leaseFor, i);
        CurrentSnap(ledger, ids[i]);
      }
      ActorStepKeeps(s, DoClaim(s, a, workerId, now, ids, leaseFor), a, Ready(workerId, queue));
    }
  }

  lemma ClaimedRecord(l: Ledger, ids: seq<string>, worker: string, now: int, leaseFor: int, i: nat)
    requires i < |ids| && forall id :: id in ids ==> id in l.entries && Due(l.entries[id], now)
    ensures ids[i] in ClaimAll(l, ids, worker, now, leaseFor).entries
    ensures ClaimedRecords(l, ids, worker, now, leaseFor)[i]
         == ClaimAll(l, ids, worker, now, leaseFor).entries[ids[i]].record
    ensures Claimable(ClaimedRecords(l, ids, worker, now, leaseFor)[i].status)
  {
    assert ids[i] in ids;
  }

  lemma BeginKeeps(s: System, a: nat)
    requires Inv(s)
    ensures Inv(DoBegin(s, a))
  {
    hide LedgerOk, Grows, SnapOk, UniqueOwners, Swap;
    var p := Pc(s, a);
    if p.Ready? {
      assert ActorOk(s.ledger, p);
      assert SnapOk(s.ledger, p.queue[0]);
      forall moved: Record, ledger: Ledger |
          SnapOk(ledger, moved) && Grows(s.ledger, ledger) && SamePinned(p.queue[0], moved) && moved.status == Dispatching
        ensures ActorOk(ledger, Admitted(Worker(p.workerId), moved, p.queue[1..]))
      {
        QueueMonotone(s.ledger, ledger, p.queue[1..]);
      }
      SwapKeeps(s, a, p.queue[0], Dispatching, WorkerData(p.workerId),
                rec => Admitted(Worker(p.workerId), rec, p.queue[1..]), Idle);
    }
  }

  lemma AttemptKeeps(s: System, a: nat)
    requires Inv(s)
    ensures Inv(DoAttempt(s, a))
  {
    hide LedgerOk, Grows, SnapOk, QueueOk, PartyOk, SamePinned, UniqueOwners, StartAttempt;
    var p := Pc(s, a);
    if p.Admitted? {
      assert ActorOk(s.ledger, p);
      StartAttemptKeepsLedger(s.ledger, p.rec.effectId, p.rec.version, PartyName(p.party), s.clock);
      UnchangedGrows(s.ledger);
      var (ledger, result) :=
        StartAttempt(s.ledger, p.rec.effectId, p.rec.version, PartyName(p.party), s.clock);
      if result.Ok? {
        SnapMonotone(s.ledger, ledger, p.rec);
        QueueMonotone(s.ledger, ledger, p.rest);
        ActorStepKeeps(s, DoAttempt(s, a), a, Calling(p.party, p.rec, result.value, p.rest));
      } else {
        ActorStepKeeps(s, DoAttempt(s, a), a, Idle);
      }
    }
  }

  lemma CallKeeps(s: System, a: nat, delivery: Delivery)
    requires Inv(s)
    ensures Inv(DoCall(s, a, delivery))
  {
    hide LedgerOk, Grows, SnapOk, QueueOk, PartyOk, UniqueOwners, Commit;
    var p := Pc(s, a);
    if p.Calling? {
      assert ActorOk(s.ledger, p);
      UnchangedGrows(s.ledger);
      var next := Pc(DoCall(s, a, delivery), a);
      assert exists answer :: next == Reporting(p.party, p.rec, p.attemptId, answer, p.rest) by {
        assert next == Reporting(p.party, p.rec, p.attemptId, next.answer, p.rest);
      }
      ActorStepKeeps(s, DoCall(s, a, delivery), a, next);
    }
  }

  lemma ReportKeeps(s: System, a: nat)
    requires Inv(s)
    ensures Inv(DoReport(s, a))
  {
    hide LedgerOk, Grows, SnapOk, QueueOk, PartyOk, UniqueOwners, Outcome, Swap;
    var p := Pc(s, a);
    if p.Reporting? {
      assert ActorOk(s.ledger, p);
      var (target, data) := Outcome(p.party, p.rec, p.attemptId, p.answer);
      var lost := if p.party.Worker? && (p.answer.Confirmed? || p.answer.Unconfirmed?)
        then Reporting(p.party, p.rec, p.attemptId, Ambiguous("VersionConflictError"), p.rest) else Idle;
      var next := Resume(p.party, p.rest);
      forall ledger: Ledger | Grows(s.ledger, ledger)
        ensures ActorOk(ledger, next) && !Owns(next)
      {
        QueueMonotone(s.ledger, ledger, p.rest);
      }
      SwapKeeps(s, a, p.rec, target, data, _ => Resume(p.party, p.rest), lost);
    }
  }

  /** An idle actor takes a snapshot and decides what to write. */
  lemma FetchKeeps(s: System, a: nat, tenantId: string, id: string, p: Actor)
    requires Inv(s) && Pc(s, a).Idle? && Get(s.ledger, tenantId, id).Some?
    requires var r := Get(s.ledger, tenantId, id).value;
             || p == Routing(r)
             || (p.Cancelling? && p.rec == r && Claimable(r.status))
             || (p.Resolving? && p.rec == r && r.status == ManualReview
                 && p.resolution in {Succeeded, FailedFinal, Compensated}
                 && exists evidence :: p.data == OperatorData(evidence))
    ensures Inv(Put(s, a, p))
  {
    hide LedgerOk, Grows, SnapOk, UniqueOwners;
    UnchangedGrows(s.ledger);
    CurrentSnap(s.ledger, id);
    ActorStepKeeps(s, Put(s, a, p), a, p);
  }

  lemma FetchesKeep(s: System, l: Label)
    requires Inv(s) && (l.Fetch? || l.FetchCancel? || l.FetchResolve?)
    ensures Inv(Next(s, l))
  {
    hide Inv;
    if Next(s, l) != s {
      FetchKeeps(s, l.a, l.tenantId, l.id, Pc(Next(s, l), l.a));
    }
  }

  lemma RouteKeeps(s: System, a: nat, checkedAt: int)
    requires Inv(s)
    ensures Inv(DoRoute(s, a, checkedAt))
  {
    hide LedgerOk, Grows, SnapOk, UniqueOwners, Swap;
    var p := Pc(s, a);
    if p.Routing? {
      assert ActorOk(s.ledger, p);
      var rec := p.rec;
      if rec.contract.safety == Idempotent {
        if RetentionValid(rec, checkedAt) {
          RedispatchKeeps(s, a, rec, checkedAt);
        } else {
          SwapKeeps(s, a, rec, ManualReview, ReasonData("idempotency_key_retention_expired"), _ => Idle, Idle);
        }
      } else if rec.contract.safety == Unsafe {
        SwapKeeps(s, a, rec, ManualReview, ReasonData("unsafe_unknown"), _ => Idle, Idle);
      } else {
        SwapKeeps(s, a, rec, Reconciling, ReasonData("authoritative_probe"), moved => Probing(moved), Idle);
      }
    }
  }

  lemma RedispatchKeeps(s: System, a: nat, rec: Record, checkedAt: int)
    requires Inv(s) && SnapOk(s.ledger, rec)
    requires rec.contract.safety == Idempotent && RetentionValid(rec, checkedAt)
    ensures Inv(Swap(s, a, rec, Dispatching, ReasonData("idempotent_redispatch"),
                     moved => Admitted(Reconciler(checkedAt), moved, []), Idle))
  {
    hide LedgerOk, Grows, SnapOk, UniqueOwners, Swap;
    SwapKeeps(s, a, rec, Dispatching, ReasonData("idempotent_redispatch"),
              moved => Admitted(Reconciler(checkedAt), moved, []), Idle);
  }

  lemma ProbeKeeps(s: System, a: nat, verdict: Verdict, evidence: Metadata)
    requires Inv(s)
    ensures Inv(DoProbe(s, a, verdict, evidence))
  {
    hide LedgerOk, Grows, SnapOk, Truthful, UniqueOwners, Probed;
    var p := Pc(s, a);
    if p.Probing? && Truthful(s.target, p.rec, verdict) {
      assert ActorOk(s.ledger, p);
      UnchangedGrows(s.ledger);
      ActorStepKeeps(s, DoProbe(s, a, verdict, evidence), a, Judging(p.rec, verdict, evidence));
    }
  }

  /** A last write after which the actor is idle. */
  lemma FinalWriteKeeps(s: System, a: nat, rec: Record, target: Status, data: Metadata)
    requires Inv(s) && SnapOk(s.ledger, rec)
    ensures Inv(Swap(s, a, rec, target, data, _ => Idle, Idle))
  {
    hide LedgerOk, Grows, SnapOk, UniqueOwners, Swap;
    SwapKeeps(s, a, rec, target, data, _ => Idle, Idle);
  }

  lemma JudgeKeeps(s: System, a: nat)
    requires Inv(s)
    ensures Inv(DoJudge(s, a))
  {
    hide LedgerOk, SnapOk, UniqueOwners, Swap;
    var p := Pc(s, a);
    if p.Judging? {
      assert ActorOk(s.ledger, p);
      var data := map["evidence" := Json.JObj(p.evidence)];
      match p.verdict
      case ProvenCommitted(x) => FinalWriteKeeps(s, a, p.rec, Succeeded, ProbedData(x, p.evidence));
      case ProvenAbsent => FinalWriteKeeps(s, a, p.rec, Prepared, data);
      case NoProof =>
        FinalWriteKeeps(s, a, p.rec, ManualReview,
                        map["evidence" := Json.JObj(p.evidence), "reason" := Json.JStr("probe_unknown")]);
    }
  }

  lemma CancelKeeps(s: System, a: nat)
    requires Inv(s)
    ensures Inv(DoCancel(s, a))
  {
    hide LedgerOk, SnapOk, UniqueOwners, Swap;
    if Pc(s, a).Cancelling? {
      assert ActorOk(s.ledger, Pc(s, a));
      FinalWriteKeeps(s, a, Pc(s, a).rec, Cancelled, Pc(s, a).data);
    }
  }

  lemma ResolveKeeps(s: System, a: nat)
    requires Inv(s)
    ensures Inv(DoResolve(s, a))
  {
    hide LedgerOk, SnapOk, UniqueOwners, Swap;
    if Pc(s, a).Resolving? {
      assert ActorOk(s.ledger, Pc(s, a));
      FinalWriteKeeps(s, a, Pc(s, a).rec, Pc(s, a).resolution, Pc(s, a).data);
    }
  }

  lemma MarkUnknownKeeps(s: System, id: string)
    requires Inv(s)
    ensures Inv(DoMarkUnknown(s, id))
  {
    if id in s.ledger.entries && s.ledger.entries[id].record.status == Dispatching {
      hide LedgerOk, Grows, ActorOk;
      TransitionKeepsLedger(s.ledger, id, s.ledger.entries[id].record.version, OutcomeUnknown,
                            ReasonData("stale_dispatching_worker_died"), s.clock);
      LedgerStepKeeps(s, DoMarkUnknown(s, id));
    }
  }

  lemma QuietKeeps(s: System, l: Label)
    requires Inv(s) && (l.Tick? || l.Crash? || l.Forget?)
    ensures Inv(Next(s, l))
  {
    hide LedgerOk, Grows, ActorOk, UniqueOwners;
    UnchangedGrows(s.ledger);
    IdleOk(s.ledger);
    if l.Crash? {
      ActorStepKeeps(s, Next(s, l), l.a, Idle);
    } else {
      LedgerStepKeeps(s, Next(s, l));
    }
  }

  lemma IdleOk(l: Ledger)
    ensures ActorOk(l, Idle)
  {
  }

  /** Every step keeps the base invariant, with no hypothesis on the environment. */
  lemma NextKeeps(s: System, l: Label)
    requires Inv(s)
    ensures Inv(Next(s, l))
  {
    hide Inv, DoSubmit, DoClaim, DoBegin, DoAttempt, DoCall, DoReport, DoFetch, DoRoute, DoProbe, DoJudge,
         DoFetchCancel, DoCancel, DoFetchResolve, DoResolve, DoMarkUnknown;
    match l
    case Tick(_) => QuietKeeps(s, l);
    case Submit(id, tenantId, request, contract) => SubmitKeeps(s, id, tenantId, request, contract);
    case Claim(a, workerId, now, ids, leaseFor) => ClaimKeeps(s, a, workerId, now, ids, leaseFor);
    case Begin(a) => BeginKeeps(s, a);
    case Attempt(a) => AttemptKeeps(s, a);
    case Call(a, delivery) => CallKeeps(s, a, delivery);
    case Report(a) => ReportKeeps(s, a);
    case Fetch(_, _, _) => FetchesKeep(s, l);
    case Route(a, checkedAt) => RouteKeeps(s, a, checkedAt);
    case Probe(a, verdict, evidence) => ProbeKeeps(s, a, verdict, evidence);
    case Judge(a) => JudgeKeeps(s, a);
    case FetchCancel(_, _, _, _, _, _) => FetchesKeep(s, l);
    case Cancel(a) => CancelKeeps(s, a);
    case FetchResolve(_, _, _, _, _) => FetchesKeep(s, l);
    case Resolve(a) => ResolveKeeps(s, a);
    case MarkUnknown(id) => MarkUnknownKeeps(s, id);
    case Crash(_) => QuietKeeps(s, l);
    case Forget(_) => QuietKeeps(s, l);
  }

  lemma StartOk(secret: string, now: int)
    ensures Inv(Start(secret, now))
  {
    EmptyLedgerOk(secret);
  }

  /** The base invariant holds after every run. */
  lemma {:induction false} RunKeeps(s: System, run: seq<Label>)
    requires Inv(s)
    ensures Inv(After(s, run))
  {
    hide Inv, Next;
    if run == [] {
    } else {
      RunKeeps(s, run[..|run| - 1]);
      NextKeeps(After(s, run[..|run| - 1]), run[|run| - 1]);
    }
  }
}
