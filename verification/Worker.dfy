/**
 * The worker (src/effect_broker/worker.py) as the imperative code it is, while nobody else writes the
 * store: each call is proved to be a run of the protocol by one actor, at clock readings that move on
 * between any two writes. What an interleaved writer does to it, the caught version conflict and its
 * second write included, is in the protocol itself (Protocol.DoBegin, DoAttempt, DoReport).
 */
module Worker {
  import opened Prelude
  import opened Json
  import Identifiers
  import opened Decimal
  import opened Models
  import opened StateMachine
  import opened Ledger
  import opened LedgerProofs
  import opened StoreContracts
  import opened Target
  import opened Protocol
  import opened ProtocolInvariant
  import opened ProtocolSteps
  import opened MemoryStore

  /**
   * What one call does and shows: a refused, lost or unconfirmed one leaves the target alone; one that lands
   * commits, asking idempotent and transactional targets to deduplicate, and only an answered one confirms.
   */
  ghost predicate Delivered(t: Target, t': Target, effect: Record, delivery: Delivery, answer: Answer, now: int) {
    match delivery
    case Refuse(error) => t' == t && answer == Rejected(error)
    case LostOnTheWay(error) => t' == t && answer == Ambiguous(error)
    case NeverConfirmed => t' == t && answer == Unconfirmed
    case Land(reply) =>
      var (after, result) := Commit(t, effect, effect.contract.safety in {Idempotent, Transactional}, now);
      && t' == after
      && (result.Err? ==> answer == Rejected("AdapterError"))
      && (result.Ok? ==>
            match reply
            case Answered => answer == Confirmed(result.value.externalId)
            case Silent(error) => answer == Ambiguous(error)
            case Vague => answer == Unconfirmed)
  }

  /**
   * An adapter in an arbitrary environment: the scripts decide what happens to each call and how much
   * each probe can prove. An authoritative probe may withhold proof but cannot invent it.
   */
  class Adapter {
    const deliveries: nat -> Delivery
    const verdicts: nat -> Verdict
    var target: Target
    var dispatches: nat
    var probes: nat

    constructor (target: Target, deliveries: nat -> Delivery, verdicts: nat -> Verdict)
      ensures this.target == target && this.deliveries == deliveries && this.verdicts == verdicts
      ensures dispatches == 0 && probes == 0
    {
      this.target, this.deliveries, this.verdicts := target, deliveries, verdicts;
      dispatches, probes := 0, 0;
    }

    method Dispatch(effect: Record, now: int) returns (answer: Answer)
      modifies this`target, this`dispatches
      ensures (target, answer) == Deliver(old(target), effect, deliveries(old(dispatches)), now)
      ensures Delivered(old(target), target, effect, deliveries(old(dispatches)), answer, now)
      ensures dispatches == old(dispatches) + 1
    {
      var delivery := deliveries(dispatches);
      dispatches := dispatches + 1;
      match delivery
      case Refuse(error) => answer := Rejected(error);
      case LostOnTheWay(error) => answer := Ambiguous(error);
      case NeverConfirmed => answer := Unconfirmed;
      case Land(reply) =>
        var (after, result) := Commit(target, effect, Dedupes(effect.contract.safety), now);
        target := after;
        answer := if result.Ok? then AnswerTo(reply, result.value.externalId) else Rejected("AdapterError");
    }

    method Probe(effect: Record) returns (verdict: Verdict)
      modifies this`probes
      ensures Truthful(target, effect, verdict)
      ensures verdict == if Truthful(target, effect, verdicts(old(probes))) then verdicts(old(probes)) else NoProof
      ensures probes == old(probes) + 1
    {
      verdict := verdicts(probes);
      probes := probes + 1;
      var charges := ChargesFor(target, effect.downstreamKey);
      if (verdict.ProvenAbsent? && charges != {}) || (verdict.ProvenCommitted? && verdict.externalId !in charges) {
        verdict := NoProof;
      }
    }
  }

  // ---------------------------------------------------------------- one effect, step by step

  /** A snapshot of a claimable effect that nobody has written since. */
  ghost predicate Fresh(m: System, rec: Record) {
    && rec.effectId in m.ledger.entries && rec == Current(m, rec.effectId)
    && Claimable(rec.status)
  }

  lemma SwapWins(m: System, a: nat, rec: Record, target: Status, data: Metadata, won: Record -> Actor, lost: Actor)
    requires rec.effectId in m.ledger.entries && rec == Current(m, rec.effectId) && Allowed(rec.status, target)
    ensures var (l, r) := Transition(m.ledger, rec.effectId, rec.version, target, data, m.clock);
            && r.Ok?
            && l == MovedLedger(m, rec.effectId, target, data)
            && r.value == MoveEntry(m.ledger.entries[rec.effectId], target, data, m.clock).record
            && Swap(m, a, rec, target, data, won, lost) == Put(m.(ledger := l), a, won(r.value))
  {
  }

  /** An actor holding the record it just moved to DISPATCHING. */
  ghost predicate Holding(m: System, rec: Record) {
    rec.effectId in m.ledger.entries && rec == Current(m, rec.effectId) && rec.status == Dispatching
  }

  lemma BeginWorks(m: System, a: nat, worker: string, queue: seq<Record>)
    requires Pc(m, a) == Ready(worker, queue) && queue != [] && Fresh(m, queue[0])
    ensures var rec := queue[0];
            var (l, r) := Transition(m.ledger, rec.effectId, rec.version, Dispatching, WorkerData(worker), m.clock);
            var m' := Next(m, Begin(a));
            && r.Ok? && m' == Put(m.(ledger := l), a, Admitted(Party.Worker(worker), r.value, queue[1..]))
            && l == MovedLedger(m, rec.effectId, Dispatching, WorkerData(worker))
            && r.value.effectId == rec.effectId && Holding(m', r.value)
  {
    hide WorkerData;
    var rec := queue[0];
    SwapWins(m, a, rec, Dispatching, WorkerData(worker), moved => Admitted(Party.Worker(worker), moved, queue[1..]), Idle);
  }

  lemma AttemptWorks(m: System, a: nat, party: Party, rec: Record, rest: seq<Record>)
    requires Pc(m, a) == Admitted(party, rec, rest) && Holding(m, rec)
    ensures var (l, r) := StartAttempt(m.ledger, rec.effectId, rec.version, PartyName(party), m.clock);
            var m' := Next(m, Label.Attempt(a));
            && r.Ok? && m' == Put(m.(ledger := l), a, Calling(party, rec, r.value, rest))
            && l.entries == m.ledger.entries[rec.effectId := AttemptEntry(m.ledger.entries[rec.effectId], PartyName(party), m.clock)]
            && r.value == Identifiers.AttemptId(rec.effectId, |m.ledger.entries[rec.effectId].attempts| + 1)
            && Holding(m', rec)
  {
  }

  lemma CallWorks(m: System, a: nat, party: Party, rec: Record, attemptId: string, rest: seq<Record>, delivery: Delivery)
    requires Pc(m, a) == Calling(party, rec, attemptId, rest) && Holding(m, rec)
    ensures var m' := Next(m, Call(a, delivery));
            var (target, answer) := Deliver(m.target, rec, delivery, m.clock);
            && m' == Put(m.(target := target, calls := m.calls + [TargetCall(rec.effectId, rec.version)]), a,
                         Reporting(party, rec, attemptId, answer, rest))
            && Holding(m', rec)
  {
    hide Deliver;
  }

  lemma ReportWorks(m: System, a: nat, party: Party, rec: Record, attemptId: string, answer: Answer, rest: seq<Record>)
    requires Pc(m, a) == Reporting(party, rec, attemptId, answer, rest) && Holding(m, rec)
    ensures var (target, data) := Outcome(party, rec, attemptId, answer);
            var (l, r) := Transition(m.ledger, rec.effectId, rec.version, target, data, m.clock);
            var m' := Next(m, Report(a));
            && r.Ok? && m' == Put(m.(ledger := l), a, Resume(party, rest))
            && l == MovedLedger(m, rec.effectId, target, data)
            && rec.effectId in l.entries && r.value == l.entries[rec.effectId].record
  {
    hide CommittedData, UnconfirmedData, FailureData;
    var (target, data) := Outcome(party, rec, attemptId, answer);
    OutcomeFacts(Reporting(party, rec, attemptId, answer, rest));
    var lost := if party.Worker? && (answer.Confirmed? || answer.Unconfirmed?)
      then Reporting(party, rec, attemptId, Ambiguous("VersionConflictError"), rest) else Idle;
    SwapWins(m, a, rec, target, data, _ => Resume(party, rest), lost);
  }

  // ---------------------------------------------------------------- time

  /** The system clock: every reading is a value of its own. */
  class Clock {
    const readings: nat -> int
    var taken: nat

    constructor (readings: nat -> int)
      ensures this.readings == readings && taken == 0
    {
      this.readings, taken := readings, 0;
    }

    method Now() returns (now: int)
      modifies this
      ensures now == readings(old(taken)) && taken == old(taken) + 1
    {
      now := readings(taken);
      taken := taken + 1;
    }
  }

  ghost predicate Nondecreasing(readings: nat -> int) {
    forall i: nat, j: nat :: i <= j ==> readings(i) <= readings(j)
  }

  /** A step taken when the clock reads now. */
  function Timed(now: int, l: Label): seq<Label> {
    [Tick(now), l]
  }

  lemma TimedStep(s: System, run: seq<Label>, now: int, l: Label)
    requires After(s, run).clock <= now
    ensures After(s, run + Timed(now, l)) == Next(After(s, run).(clock := now), l)
  {
    AfterStep(s, run, Tick(now));
    AfterStep(s, run + [Tick(now)], l);
    assert run + Timed(now, l) == run + [Tick(now)] + [l];
    TickWorks(After(s, run), now);
  }

  lemma TickWorks(m: System, now: int)
    requires m.clock <= now
    ensures Next(m, Tick(now)) == m.(clock := now)
  {
  }

  /** DISPATCHING, attempt row, call and outcome, at four successive readings of the clock. */
  function DispatchSteps(a: nat, delivery: Delivery, readings: nat -> int, k: nat): seq<Label> {
    [] + Timed(readings(k), Begin(a)) + Timed(readings(k + 1), Label.Attempt(a))
    + Timed(readings(k + 2), Call(a, delivery)) + Timed(readings(k + 3), Report(a))
  }

  /** The state after the first one, two, three and four of them. */
  ghost function Begun(m: System, a: nat, readings: nat -> int, k: nat): System {
    Next(m.(clock := readings(k)), Begin(a))
  }

  ghost function Tried(m: System, a: nat, readings: nat -> int, k: nat): System {
    Next(Begun(m, a, readings, k).(clock := readings(k + 1)), Label.Attempt(a))
  }

  ghost function Asked(m: System, a: nat, delivery: Delivery, readings: nat -> int, k: nat): System {
    Next(Tried(m, a, readings, k).(clock := readings(k + 2)), Call(a, delivery))
  }

  ghost function Recorded(m: System, a: nat, delivery: Delivery, readings: nat -> int, k: nat): System {
    Next(Asked(m, a, delivery, readings, k).(clock := readings(k + 3)), Report(a))
  }

  /** An actor's own steps do not move the clock. */
  lemma ClockStands(m: System, l: Label)
    requires !l.Tick?
    ensures Next(m, l).clock == m.clock
  {
    hide Commit, Truthful, Transition, StartAttempt, Reserve, ClaimAll, ClaimedRecords, Outcome, RetentionValid;
  }

  lemma DispatchStepsAre(m: System, a: nat, delivery: Delivery, readings: nat -> int, k: nat)
    requires Nondecreasing(readings) && m.clock <= readings(k)
    ensures After(m, DispatchSteps(a, delivery, readings, k)) == Recorded(m, a, delivery, readings, k)
    ensures Recorded(m, a, delivery, readings, k).clock == readings(k + 3)
  {
    hide Next;
    var none: seq<Label> := [];
    var r1 := none + Timed(readings(k), Begin(a));
    var r2 := r1 + Timed(readings(k + 1), Label.Attempt(a));
    var r3 := r2 + Timed(readings(k + 2), Call(a, delivery));
    assert After(m, none) == m;
    ClockStands(m.(clock := readings(k)), Begin(a));
    TimedStep(m, none, readings(k), Begin(a));
    ClockStands(Begun(m, a, readings, k).(clock := readings(k + 1)), Label.Attempt(a));
    TimedStep(m, r1, readings(k + 1), Label.Attempt(a));
    ClockStands(Tried(m, a, readings, k).(clock := readings(k + 2)), Call(a, delivery));
    TimedStep(m, r2, readings(k + 2), Call(a, delivery));
    ClockStands(Asked(m, a, delivery, readings, k).(clock := readings(k + 3)), Report(a));
    TimedStep(m, r3, readings(k + 3), Report(a));
  }

  // ---------------------------------------------------------------- what one dispatch leaves behind

  /**
   * The whole trace of one dispatch, in fields and instants: DISPATCHING at the first reading, the attempt row at
   * the second, the outcome at the fourth, with the status and facts the answer is evidence for.
   */
  ghost predicate Journaled(e: Entry, e': Entry, worker: string, answer: Answer, readings: nat -> int, k: nat) {
    var id, n, v, i := e.record.effectId, |e.attempts| + 1, e.record.version + 1, |e.events|;
    var attemptId := id + "-attempt-" + Digits(n);
    var status :=
      match answer
      case Confirmed(_) => Succeeded
      case Unconfirmed => OutcomeUnknown
      case Ambiguous(_) => OutcomeUnknown
      case Rejected(_) => if n < e.record.contract.retryLimit then Retryable else FailedFinal;
    var facts :=
      match answer
      case Confirmed(x) =>
        map["attempt_id" := JStr(attemptId), "external_id" := JStr(x), "output" := JObj(map["external_id" := JStr(x)])]
      case Unconfirmed => map["attempt_id" := JStr(attemptId), "reason" := JStr("not_confirmed")]
      case Ambiguous(error) => map["attempt_id" := JStr(attemptId), "error" := JStr(error), "reason" := JStr("ambiguous_dispatch")]
      case Rejected(error) => map["attempt_id" := JStr(attemptId), "error" := JStr(error), "reason" := JStr("proven_non_commit")];
    && e'.record == e.record.(status := status, version := v + 1, updatedAt := readings(k + 3))
    && e'.lease == None
    && e'.attempts == e.attempts + [Attempt.Attempt(attemptId, id, n, worker, v, readings(k + 1))]
    && e'.events == e.events + [Event(i + 1, v, readings(k), Moved(e.record.status, Dispatching, map["worker_id" := JStr(worker)])),
                                Event(i + 2, v, readings(k + 1), AttemptStarted(attemptId, n, worker)),
                                Event(i + 3, v + 1, readings(k + 3), Moved(Dispatching, status, facts))]
  }

  /** The three writes of a dispatch, one after the other. */
  lemma WritesJournal(e: Entry, worker: string, answer: Answer, readings: nat -> int, k: nat)
    ensures var e1 := MoveEntry(e, Dispatching, WorkerData(worker), readings(k));
            var e2 := AttemptEntry(e1, worker, readings(k + 1));
            var attemptId := Identifiers.AttemptId(e.record.effectId, |e.attempts| + 1);
            var (target, data) := Outcome(Party.Worker(worker), e1.record, attemptId, answer);
            Journaled(e, MoveEntry(e2, target, data, readings(k + 3)), worker, answer, readings, k)
  {
    hide Digits, Identifiers.AttemptOrdinal;
    Identifiers.AttemptOrdinalRoundTrip(e.record.effectId, |e.attempts| + 1);
    var e1 := MoveEntry(e, Dispatching, WorkerData(worker), readings(k));
    var e2 := AttemptEntry(e1, worker, readings(k + 1));
    assert e2.events == e.events + [e1.events[|e.events|], e2.events[|e.events| + 1]];
  }

  lemma DeliverDelivers(t: Target, effect: Record, delivery: Delivery, now: int)
    ensures Delivered(t, Deliver(t, effect, delivery, now).0, effect, delivery, Deliver(t, effect, delivery, now).1, now)
  {
    hide Commit;
  }

  /** The status a dispatch ends in, by what the adapter answered and how many attempts were made. */
  function StatusAfter(contract: Contract, attempts: nat, answer: Answer): Status {
    match answer
    case Confirmed(_) => Succeeded
    case Unconfirmed => OutcomeUnknown
    case Ambiguous(_) => OutcomeUnknown
    case Rejected(_) => if attempts < contract.retryLimit then Retryable else FailedFinal
  }

  /** One effect was dispatched once: one more attempt, no lease, and nobody else changed. */
  ghost predicate Dispatched(m: System, m': System, id: string, answer: Answer)
    requires id in m.ledger.entries
  {
    && id in m'.ledger.entries && m'.ledger.entries.Keys == m.ledger.entries.Keys
    && m'.ledger.order == m.ledger.order
    && (forall x :: x in m.ledger.entries && x != id ==> m'.ledger.entries[x] == m.ledger.entries[x])
    && var e, e' := m.ledger.entries[id], m'.ledger.entries[id];
    && SamePinned(e.record, e'.record)
    && |e'.attempts| == |e.attempts| + 1 && e'.lease == None
    && e'.record.status == StatusAfter(e.record.contract, |e.attempts| + 1, answer)
    && e'.record.version == e.record.version + 2
    && |m'.calls| == |m.calls| + 1
  }

  /** The record a worker dispatches once DISPATCHING is written. */
  function DispatchingRecord(m: System, id: string, worker: string, now: int): Record
    requires id in m.ledger.entries
  {
    MoveEntry(m.ledger.entries[id], Dispatching, WorkerData(worker), now).record
  }

  lemma DispatchLeaves(m: System, a: nat, worker: string, queue: seq<Record>, delivery: Delivery, readings: nat -> int, k: nat)
    returns (answer: Answer)
    requires Inv(m) && Pc(m, a) == Ready(worker, queue) && queue != [] && Fresh(m, queue[0])
    ensures Dispatched(m, Recorded(m, a, delivery, readings, k), queue[0].effectId, answer)
    ensures answer == Deliver(m.target, DispatchingRecord(m, queue[0].effectId, worker, readings(k)), delivery, readings(k + 2)).1
    ensures Pc(Recorded(m, a, delivery, readings, k), a) == Resume(Party.Worker(worker), queue[1..])
    ensures Journaled(m.ledger.entries[queue[0].effectId], Recorded(m, a, delivery, readings, k).ledger.entries[queue[0].effectId],
                      worker, answer, readings, k)
    ensures Recorded(m, a, delivery, readings, k).target
         == Deliver(m.target, DispatchingRecord(m, queue[0].effectId, worker, readings(k)), delivery, readings(k + 2)).0
  {
    hide Next, Inv, Deliver, WorkerData, Outcome, Identifiers.AttemptId, Journaled, AttemptEntry, StatusAfter, SamePinned;
    var id := queue[0].effectId;
    BeginWorks(m.(clock := readings(k)), a, worker, queue);
    var m1 := Begun(m, a, readings, k);
    var held := Pc(m1, a).rec;
    AttemptWorks(m1.(clock := readings(k + 1)), a, Party.Worker(worker), held, queue[1..]);
    var m2 := Tried(m, a, readings, k);
    var attemptId := Pc(m2, a).attemptId;
    CallWorks(m2.(clock := readings(k + 2)), a, Party.Worker(worker), held, attemptId, queue[1..], delivery);
    var m3 := Asked(m, a, delivery, readings, k);
    answer := Pc(m3, a).answer;
    ReportWorks(m3.(clock := readings(k + 3)), a, Party.Worker(worker), held, attemptId, answer, queue[1..]);
    WritesJournal(m.ledger.entries[id], worker, answer, readings, k);
    JournaledFacts(m.ledger.entries[id], Recorded(m, a, delivery, readings, k).ledger.entries[id], worker, answer, readings, k);
  }

  lemma JournaledFacts(e: Entry, e': Entry, worker: string, answer: Answer, readings: nat -> int, k: nat)
    requires Journaled(e, e', worker, answer, readings, k)
    ensures SamePinned(e.record, e'.record) && |e'.attempts| == |e.attempts| + 1 && e'.lease == None
    ensures e'.record.version == e.record.version + 2
    ensures e'.record.status == StatusAfter(e.record.contract, |e.attempts| + 1, answer)
  {
    hide Digits;
  }

  // ---------------------------------------------------------------- dispatching one claimed effect

  /** The system the store, the adapter and the clock are in. */
  ghost predicate Embodies(store: InMemoryStore, adapter: Adapter, clock: Clock, m: System)
    reads store, adapter, clock
  {
    && store.Valid() && store.Model() == m.ledger && adapter.target == m.target
    && Nondecreasing(clock.readings) && m.clock <= clock.readings(clock.taken)
  }

  /** The only truthful outcome the answer is evidence for: success needs a confirmation, silence stays unknown. */
  method RecordAnswer(store: InMemoryStore, worker: string, dispatching: Record, attemptId: string, answer: Answer, now: int)
    returns (r: Result<Record, StoreError>)
    requires store.Valid()
    modifies store
    ensures store.Valid()
    ensures var (target, data) := Outcome(Party.Worker(worker), dispatching, attemptId, answer);
            (store.Model(), r) == Transition(old(store.Model()), dispatching.effectId, dispatching.version, target, data, now)
    ensures r.Ok? ==>
              r.value.status == match answer
                                case Confirmed(_) => Succeeded
                                case Unconfirmed => OutcomeUnknown
                                case Ambiguous(_) => OutcomeUnknown
                                case Rejected(_) =>
                                  if Identifiers.AttemptOrdinal(attemptId) < dispatching.contract.retryLimit then Retryable else FailedFinal
  {
    hide LedgerOk, Transition, CommittedData, UnconfirmedData, FailureData, Identifiers.AttemptOrdinal, Writes;
    ghost var before := store.Model();
    var target, data;
    match answer {
      case Confirmed(x) => target, data := Succeeded, CommittedData(attemptId, x);
      case Unconfirmed => target, data := OutcomeUnknown, UnconfirmedData(attemptId);
      case Rejected(error) =>
        target := if Identifiers.AttemptOrdinal(attemptId) < dispatching.contract.retryLimit then Retryable else FailedFinal;
        data := FailureData(attemptId, error, "proven_non_commit");
      case Ambiguous(error) => target, data := OutcomeUnknown, FailureData(attemptId, error, "ambiguous_dispatch");
    }
    r := store.Transition(dispatching.effectId, dispatching.version, target, data, now);
    if r.Ok? {
      WrittenStatus(before, store.Model(), dispatching.effectId, dispatching.version, target, data, now, r);
    }
  }

  /** DISPATCHING and the attempt row, written ahead of the call. */
  method WriteAhead(store: InMemoryStore, clock: Clock, worker: string, effect: Record,
                    ghost m: System, ghost a: nat, ghost rest: seq<Record>)
    returns (dispatching: Record, attemptId: string)
    requires store.Valid() && store.Model() == m.ledger
    requires Pc(m, a) == Ready(worker, [effect] + rest) && Fresh(m, effect)
    modifies store, clock
    ensures store.Valid() && clock.taken == old(clock.taken) + 2
    ensures var m' := Tried(m, a, clock.readings, old(clock.taken));
            && store.Model() == m'.ledger && m'.target == m.target
            && Pc(m', a) == Calling(Party.Worker(worker), dispatching, attemptId, rest) && Holding(m', dispatching)
    ensures dispatching.effectId == effect.effectId
  {
    hide Transition, StartAttempt, WorkerData, LedgerOk, Fresh, Holding, Begun, Tried, Writes, Attempts,
         InMemoryStore.Valid, InMemoryStore.Model;
    ghost var k := clock.taken;
    StageBegun(m, a, worker, effect, rest, clock.readings, k);
    var now := clock.Now();
    var begun := store.Transition(effect.effectId, effect.version, Dispatching, WorkerData(worker), now);
    dispatching := begun.value;
    StageTried(m, a, worker, dispatching, rest, clock.readings, k);
    now := clock.Now();
    var started := store.StartAttempt(dispatching.effectId, dispatching.version, worker, now);
    attemptId := started.value;
  }

  /** The call, and then the only truthful outcome. */
  method CallAndRecord(store: InMemoryStore, adapter: Adapter, clock: Clock, worker: string, dispatching: Record, attemptId: string,
                       ghost m: System, ghost a: nat, ghost rest: seq<Record>, ghost k: nat)
    returns (result: Record)
    requires var before := Tried(m, a, clock.readings, k);
             && store.Valid() && store.Model() == before.ledger && adapter.target == before.target
             && Pc(before, a) == Calling(Party.Worker(worker), dispatching, attemptId, rest) && Holding(before, dispatching)
    requires clock.taken == k + 2
    modifies store, adapter, clock
    ensures var m' := Recorded(m, a, adapter.deliveries(old(adapter.dispatches)), clock.readings, k);
            && store.Valid() && store.Model() == m'.ledger && adapter.target == m'.target
            && dispatching.effectId in m'.ledger.entries && result == Current(m', dispatching.effectId)
    ensures adapter.dispatches == old(adapter.dispatches) + 1 && clock.taken == old(clock.taken) + 2
  {
    hide Transition, Deliver, Outcome, LedgerOk, Holding, Tried, Asked, Recorded;
    ghost var delivery := adapter.deliveries(adapter.dispatches);
    StageAsked(m, a, worker, dispatching, attemptId, rest, delivery, clock.readings, k);
    var now := clock.Now();
    var seen := adapter.Dispatch(dispatching, now);
    StageRecorded(m, a, worker, dispatching, attemptId, seen, rest, delivery, clock.readings, k);
    now := clock.Now();
    var recorded := RecordAnswer(store, worker, dispatching, attemptId, seen, now);
    result := recorded.value;
  }

  /** One effect taken from the head of a worker's queue, dispatched and recorded. */
  ghost predicate DispatchedFrom(m: System, m': System, a: nat, worker: string, effect: Record, rest: seq<Record>,
                                 delivery: Delivery, readings: nat -> int, k: nat, result: Record, answer: Answer)
  {
    && effect.effectId in m.ledger.entries
    && Dispatched(m, m', effect.effectId, answer)
    && Pc(m', a) == Resume(Party.Worker(worker), rest)
    && result == Current(m', effect.effectId)
    && Journaled(m.ledger.entries[effect.effectId], m'.ledger.entries[effect.effectId], worker, answer, readings, k)
    && Delivered(m.target, m'.target, effect.(status := Dispatching, version := effect.version + 1, updatedAt := readings(k)),
                 delivery, answer, readings(k + 2))
    && answer == Deliver(m.target, DispatchingRecord(m, effect.effectId, worker, readings(k)), delivery, readings(k + 2)).1
  }

  lemma DispatchedFromIntro(m: System, a: nat, worker: string, effect: Record, rest: seq<Record>, delivery: Delivery,
                            readings: nat -> int, k: nat)
    returns (result: Record, answer: Answer)
    requires Inv(m) && Pc(m, a) == Ready(worker, [effect] + rest) && Fresh(m, effect)
    ensures effect.effectId in Recorded(m, a, delivery, readings, k).ledger.entries
    ensures result == Current(Recorded(m, a, delivery, readings, k), effect.effectId)
    ensures DispatchedFrom(m, Recorded(m, a, delivery, readings, k), a, worker, effect, rest, delivery, readings, k, result, answer)
    ensures effect.effectId in m.ledger.entries
    ensures Journaled(m.ledger.entries[effect.effectId], Recorded(m, a, delivery, readings, k).ledger.entries[effect.effectId],
                      worker, answer, readings, k)
    ensures Delivered(m.target, Recorded(m, a, delivery, readings, k).target,
                      effect.(status := Dispatching, version := effect.version + 1, updatedAt := readings(k)),
                      delivery, answer, readings(k + 2))
  {
    hide Inv, Deliver, Recorded, Journaled, Delivered, WorkerData;
    DeliverDelivers(m.target, DispatchingRecord(m, effect.effectId, worker, readings(k)), delivery, readings(k + 2));
    assert ([effect] + rest)[1..] == rest && ([effect] + rest)[0] == effect;
    answer := DispatchLeaves(m, a, worker, [effect] + rest, delivery, readings, k);
    result := Current(Recorded(m, a, delivery, readings, k), effect.effectId);
  }

  /** DISPATCHING and the attempt row are written before the target is called, the outcome after. */
  method DispatchOne(store: InMemoryStore, adapter: Adapter, clock: Clock, worker: string, effect: Record,
                     ghost m: System, ghost a: nat, ghost rest: seq<Record>)
    returns (result: Record, ghost answer: Answer)
    requires Embodies(store, adapter, clock, m) && Inv(m)
    requires Pc(m, a) == Ready(worker, [effect] + rest) && Fresh(m, effect)
    modifies store, adapter, clock
    ensures adapter.dispatches == old(adapter.dispatches) + 1 && clock.taken == old(clock.taken) + 4
    ensures var delivery, k := adapter.deliveries(old(adapter.dispatches)), old(clock.taken);
            var m' := After(m, DispatchSteps(a, delivery, clock.readings, k));
            && Embodies(store, adapter, clock, m')
            && DispatchedFrom(m, m', a, worker, effect, rest, delivery, clock.readings, k, result, answer)
    ensures var k := old(clock.taken);
            && effect.effectId in m.ledger.entries && effect.effectId in store.Model().entries
            && result == store.Model().entries[effect.effectId].record
            && Journaled(m.ledger.entries[effect.effectId], store.Model().entries[effect.effectId], worker, answer, clock.readings, k)
            && Delivered(old(adapter.target), adapter.target,
                         effect.(status := Dispatching, version := effect.version + 1, updatedAt := clock.readings(k)),
                         adapter.deliveries(old(adapter.dispatches)), answer, clock.readings(k + 2))
  {
    hide Inv, Deliver, LedgerOk, Fresh, Holding, Tried, Recorded, DispatchSteps, Nondecreasing, DispatchedFrom, After,
         Journaled, Delivered,
         InMemoryStore.Valid, InMemoryStore.Model, Next, Pc;
    ghost var delivery, k := adapter.deliveries(adapter.dispatches), clock.taken;
    ghost var expected;
    expected, answer := DispatchedFromIntro(m, a, worker, effect, rest, delivery, clock.readings, k);
    DispatchStepsAre(m, a, delivery, clock.readings, k);
    LaterReading(clock.readings, k + 3, k + 4);
    var dispatching, attemptId := WriteAhead(store, clock, worker, effect, m, a, rest);
    result := CallAndRecord(store, adapter, clock, worker, dispatching, attemptId, m, a, rest, k);
  }

  lemma LaterReading(readings: nat -> int, i: nat, j: nat)
    requires Nondecreasing(readings) && i <= j
    ensures readings(i) <= readings(j)
  {
  }

  lemma StageBegun(m: System, a: nat, worker: string, rec: Record, rest: seq<Record>, readings: nat -> int, k: nat)
    requires Pc(m, a) == Ready(worker, [rec] + rest) && Fresh(m, rec)
    ensures var (l, r) := Transition(m.ledger, rec.effectId, rec.version, Dispatching, WorkerData(worker), readings(k));
            var m' := Begun(m, a, readings, k);
            && r.Ok? && m'.ledger == l && m'.target == m.target
            && Pc(m', a) == Admitted(Party.Worker(worker), r.value, rest) && Holding(m', r.value)
            && r.value.effectId == rec.effectId
  {
    hide Next, WorkerData, MoveEntry;
    assert ([rec] + rest)[1..] == rest;
    BeginWorks(m.(clock := readings(k)), a, worker, [rec] + rest);
  }

  lemma StageTried(m: System, a: nat, worker: string, rec: Record, rest: seq<Record>, readings: nat -> int, k: nat)
    requires Pc(Begun(m, a, readings, k), a) == Admitted(Party.Worker(worker), rec, rest) && Holding(Begun(m, a, readings, k), rec)
    ensures var before, m' := Begun(m, a, readings, k), Tried(m, a, readings, k);
            var (l, r) := StartAttempt(before.ledger, rec.effectId, rec.version, worker, readings(k + 1));
            && r.Ok? && m'.ledger == l && m'.target == before.target
            && Pc(m', a) == Calling(Party.Worker(worker), rec, r.value, rest) && Holding(m', rec)
  {
    hide Next, Begun, AttemptEntry;
    AttemptWorks(Begun(m, a, readings, k).(clock := readings(k + 1)), a, Party.Worker(worker), rec, rest);
  }

  lemma StageAsked(m: System, a: nat, worker: string, rec: Record, attemptId: string, rest: seq<Record>, delivery: Delivery,
                   readings: nat -> int, k: nat)
    requires Pc(Tried(m, a, readings, k), a) == Calling(Party.Worker(worker), rec, attemptId, rest) && Holding(Tried(m, a, readings, k), rec)
    ensures var before, m' := Tried(m, a, readings, k), Asked(m, a, delivery, readings, k);
            var (target, answer) := Deliver(before.target, rec, delivery, readings(k + 2));
            && m'.ledger == before.ledger && m'.target == target
            && Pc(m', a) == Reporting(Party.Worker(worker), rec, attemptId, answer, rest) && Holding(m', rec)
  {
    hide Next, Tried, Deliver;
    CallWorks(Tried(m, a, readings, k).(clock := readings(k + 2)), a, Party.Worker(worker), rec, attemptId, rest, delivery);
  }

  lemma StageRecorded(m: System, a: nat, worker: string, rec: Record, attemptId: string, answer: Answer, rest: seq<Record>,
                      delivery: Delivery, readings: nat -> int, k: nat)
    requires Pc(Asked(m, a, delivery, readings, k), a) == Reporting(Party.Worker(worker), rec, attemptId, answer, rest)
    requires Holding(Asked(m, a, delivery, readings, k), rec)
    ensures var before, m' := Asked(m, a, delivery, readings, k), Recorded(m, a, delivery, readings, k);
            var (target, data) := Outcome(Party.Worker(worker), rec, attemptId, answer);
            var (l, r) := Transition(before.ledger, rec.effectId, rec.version, target, data, readings(k + 3));
            && r.Ok? && m'.ledger == l && m'.target == before.target
            && rec.effectId in m'.ledger.entries && r.value == Current(m', rec.effectId)
  {
    hide Next, Asked, Outcome, MoveEntry;
    ReportWorks(Asked(m, a, delivery, readings, k).(clock := readings(k + 3)), a, Party.Worker(worker), rec, attemptId, answer, rest);
  }
}
