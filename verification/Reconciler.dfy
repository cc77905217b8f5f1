/** The reconciler (src/effect_broker/reconcile.py): one effect of unknown outcome, resolved by its safety class. */
module Reconciler {
  import opened Prelude
  import opened Json
  import Identifiers
  import opened Decimal
  import opened Identity
  import opened Models
  import opened StateMachine
  import opened Ledger
  import opened LedgerProofs
  import opened StoreContracts
  import opened Target
  import opened Protocol
  import opened ProtocolInvariant
  import opened ProtocolSteps
  import opened MemoryStore
  import opened Worker

  /** The fenced write of a probe's verdict. */
  lemma JudgeWorks(m: System, a: nat, rec: Record, verdict: Verdict, evidence: Metadata)
    requires Pc(m, a) == Judging(rec, verdict, evidence)
    requires rec.effectId in m.ledger.entries && rec == Current(m, rec.effectId) && rec.status == Reconciling
    ensures var (target, data) := Judgement(verdict, evidence);
            var (l, r) := Transition(m.ledger, rec.effectId, rec.version, target, data, m.clock);
            && r.Ok? && Next(m, Judge(a)) == Put(m.(ledger := l), a, Idle)
            && rec.effectId in l.entries && r.value == l.entries[rec.effectId].record && r.value.status == target
            && l.entries[rec.effectId] == MoveEntry(m.ledger.entries[rec.effectId], target, data, m.clock)
  {
    var (target, data) := Judgement(verdict, evidence);
    SwapWins(m, a, rec, target, data, _ => Idle, Idle);
  }

  /** The status and facts a verdict is recorded with. */
  function Judgement(verdict: Verdict, evidence: Metadata): (Status, Metadata) {
    match verdict
    case ProvenCommitted(x) => (Succeeded, ProbedData(x, evidence))
    case ProvenAbsent => (Prepared, map["evidence" := JObj(evidence)])
    case NoProof => (ManualReview, map["evidence" := JObj(evidence), "reason" := JStr("probe_unknown")])
  }

  /** The first write of a reconciliation: it alone can lose to somebody else's write. */
  lemma RouteWorks(m: System, a: nat, effect: Record, checkedAt: int)
    requires Inv(m) && Pc(m, a) == Routing(effect) && checkedAt <= m.clock
    ensures var (target, data) := FirstWrite(effect, checkedAt);
            var (l, r) := Transition(m.ledger, effect.effectId, effect.version, target, data, m.clock);
            var m' := Next(m, Route(a, checkedAt));
            && (r.Err? ==> m' == Put(m, a, Idle) && l == m.ledger)
            && (r.Ok? ==>
                  && r.value.effectId == effect.effectId && SamePinned(effect, r.value) && r.value.status == target
                  && effect.effectId in l.entries && r.value == l.entries[effect.effectId].record
                  && m' == Put(m.(ledger := l), a,
                       match target
                       case Dispatching => Admitted(Party.Reconciler(checkedAt), r.value, [])
                       case Reconciling => Probing(r.value)
                       case _ => Idle))
  {
    hide LedgerOk, UniqueOwners, SamePinned, MoveEntry, Allowed;
    assert ActorOk(m.ledger, Pc(m, a));
    var (target, data) := FirstWrite(effect, checkedAt);
    if Transition(m.ledger, effect.effectId, effect.version, target, data, m.clock).1.Ok? {
      MovedRecord(m.ledger, effect.effectId, effect.version, target, data, m.clock);
    }
  }

  function FirstWrite(effect: Record, now: int): (Status, Metadata) {
    match RouteUnknown(effect.contract.safety)
    case Dispatching =>
      if !RetentionValid(effect, now) then (ManualReview, ReasonData("idempotency_key_retention_expired"))
      else (Dispatching, ReasonData("idempotent_redispatch"))
    case Reconciling => (Reconciling, ReasonData("authoritative_probe"))
    case _ => (ManualReview, ReasonData("unsafe_unknown"))
  }

  // ---------------------------------------------------------------- what a reconciliation leaves behind

  /** A redispatch: checked at reading k, written ahead at the next two, called at k + 3 and recorded at k + 4. */
  ghost predicate Redispatched(e: Entry, e': Entry, answer: Answer, readings: nat -> int, k: nat) {
    var id, n, v, i := e.record.effectId, |e.attempts| + 1, e.record.version + 1, |e.events|;
    var attemptId := id + "-attempt-" + Digits(n);
    var status :=
      match answer
      case Confirmed(_) => Succeeded
      case Unconfirmed => OutcomeUnknown
      case Ambiguous(_) => OutcomeUnknown
      case Rejected(_) => Retryable;
    var facts :=
      match answer
      case Confirmed(x) =>
        map["attempt_id" := JStr(attemptId), "external_id" := JStr(x), "output" := JObj(map["external_id" := JStr(x)])]
      case Unconfirmed => map["attempt_id" := JStr(attemptId), "reason" := JStr("not_confirmed")]
      case Ambiguous(error) => map["attempt_id" := JStr(attemptId), "error" := JStr(error), "reason" := JStr("ambiguous_redispatch")]
      case Rejected(error) =>
        map["attempt_id" := JStr(attemptId), "error" := JStr(error), "reason" := JStr("proven_non_commit_after_redispatch")];
    && e'.record == e.record.(status := status, version := v + 1, updatedAt := readings(k + 4))
    && e'.lease == None
    && e'.attempts == e.attempts + [Attempt.Attempt(attemptId, id, n, "reconciler", v, readings(k + 2))]
    && e'.events == e.events + [Event(i + 1, v, readings(k + 1), Moved(e.record.status, Dispatching, map["reason" := JStr("idempotent_redispatch")])),
                                Event(i + 2, v, readings(k + 2), AttemptStarted(attemptId, n, "reconciler")),
                                Event(i + 3, v + 1, readings(k + 4), Moved(Dispatching, status, facts))]
  }

  /** A probe: the verdict alone decides, and the evidence is kept with it. */
  ghost predicate ProbedAndJudged(e: Entry, e': Entry, verdict: Verdict, evidence: Metadata, readings: nat -> int, k: nat) {
    var v, i := e.record.version + 1, |e.events|;
    var status :=
      match verdict
      case ProvenCommitted(_) => Succeeded
      case ProvenAbsent => Prepared
      case NoProof => ManualReview;
    var facts :=
      match verdict
      case ProvenCommitted(x) =>
        map["external_id" := JStr(x), "output" := JObj(map["external_id" := JStr(x)]), "evidence" := JObj(evidence)]
      case ProvenAbsent => map["evidence" := JObj(evidence)]
      case NoProof => map["evidence" := JObj(evidence), "reason" := JStr("probe_unknown")];
    && e'.record == e.record.(status := status, version := v + 1, updatedAt := readings(k + 2))
    && e'.lease == None && e'.attempts == e.attempts
    && e'.events == e.events + [Event(i + 1, v, readings(k + 1), Moved(e.record.status, Reconciling, map["reason" := JStr("authoritative_probe")])),
                                Event(i + 2, v + 1, readings(k + 2), Moved(Reconciling, status, facts))]
  }

  /** Left to a human, for a reason. */
  ghost predicate Reviewed(e: Entry, e': Entry, reason: string, readings: nat -> int, k: nat) {
    && e'.record == e.record.(status := ManualReview, version := e.record.version + 1, updatedAt := readings(k + 1))
    && e'.lease == None && e'.attempts == e.attempts
    && e'.events == e.events + [Event(|e.events| + 1, e.record.version + 1, readings(k + 1),
                                      Moved(e.record.status, ManualReview, map["reason" := JStr(reason)]))]
  }

  /** Whether a verdict is true of the charges under a key. */
  ghost predicate True(t: Target, key: DownstreamKey, verdict: Verdict) {
    match verdict
    case NoProof => true
    case ProvenAbsent => !Charged(t, key)
    case ProvenCommitted(x) => x in t.charges && t.charges[x].downstreamKey == key
  }

  /** What a reconciliation can see and change of its adapter. */
  datatype AdapterState = AdapterState(target: Target, dispatches: nat, probes: nat)

  /**
   * A reconciliation begun at reading k, by safety class. An idempotent effect is redispatched once, up to the
   * last instant of its key's retention counted from creation; a probed one ends as the probe says whenever that
   * is true; everything else goes to a human with the adapter untouched.
   */
  ghost predicate Traced(e: Entry, e': Entry, was: AdapterState, now: AdapterState, deliveries: nat -> Delivery, verdicts: nat -> Verdict,
                         evidence: Metadata, answer: Answer, readings: nat -> int, k: nat)
  {
    var effect, retention := e.record, e.record.contract.keyRetention;
    match effect.contract.safety
    case Unsafe => now == was && Reviewed(e, e', "unsafe_unknown", readings, k)
    case Idempotent =>
      if retention.Some? && readings(k) <= effect.createdAt + retention.value then
        var dispatching := effect.(status := Dispatching, version := effect.version + 1, updatedAt := readings(k + 1));
        && now.dispatches == was.dispatches + 1 && now.probes == was.probes
        && Delivered(was.target, now.target, dispatching, deliveries(was.dispatches), answer, readings(k + 3))
        && Redispatched(e, e', answer, readings, k)
      else now == was && Reviewed(e, e', "idempotency_key_retention_expired", readings, k)
    case _ =>
      var said := verdicts(was.probes);
      && now == was.(probes := was.probes + 1)
      && ProbedAndJudged(e, e', if True(was.target, effect.downstreamKey, said) then said else NoProof, evidence, readings, k)
  }

  lemma TraceOfRedispatch(e: Entry, e': Entry, was: AdapterState, now: AdapterState, deliveries: nat -> Delivery, verdicts: nat -> Verdict,
                          evidence: Metadata, answer: Answer, readings: nat -> int, k: nat)
    requires FirstWrite(e.record, readings(k)).0 == Dispatching
    requires var e1 := MoveEntry(e, Dispatching, FirstWrite(e.record, readings(k)).1, readings(k + 1));
             var attemptId := Identifiers.AttemptId(e.record.effectId, |e1.attempts| + 1);
             var (target, data) := Outcome(Party.Reconciler(readings(k)), e1.record, attemptId, answer);
             && e' == MoveEntry(AttemptEntry(e1, "reconciler", readings(k + 2)), target, data, readings(k + 4))
             && Delivered(was.target, now.target, e1.record, deliveries(was.dispatches), answer, readings(k + 3))
    requires now.dispatches == was.dispatches + 1 && now.probes == was.probes
    ensures Traced(e, e', was, now, deliveries, verdicts, evidence, answer, readings, k)
  {
    hide Delivered, Redispatched, Outcome, AttemptEntry, Identifiers.AttemptId;
    FirstStop(e.record, readings(k));
    RedispatchJournal(e, readings(k), answer, readings, k);
  }

  lemma TraceOfProbe(e: Entry, e': Entry, was: AdapterState, deliveries: nat -> Delivery, verdicts: nat -> Verdict,
                     evidence: Metadata, answer: Answer, readings: nat -> int, k: nat)
    requires FirstWrite(e.record, readings(k)).0 == Reconciling
    requires var said := verdicts(was.probes);
             var (target, data) := Judgement(if True(was.target, e.record.downstreamKey, said) then said else NoProof, evidence);
             e' == MoveEntry(MoveEntry(e, Reconciling, FirstWrite(e.record, readings(k)).1, readings(k + 1)), target, data, readings(k + 2))
    ensures Traced(e, e', was, was.(probes := was.probes + 1), deliveries, verdicts, evidence, answer, readings, k)
  {
    hide True, ProbedAndJudged, Judgement, MoveEntry;
    FirstStop(e.record, readings(k));
    var said := verdicts(was.probes);
    ProbeJournal(e, if True(was.target, e.record.downstreamKey, said) then said else NoProof, evidence, readings, k);
  }

  lemma TraceOfReview(e: Entry, was: AdapterState, deliveries: nat -> Delivery, verdicts: nat -> Verdict,
                      evidence: Metadata, answer: Answer, readings: nat -> int, k: nat)
    requires FirstWrite(e.record, readings(k)).0 !in {Dispatching, Reconciling}
    ensures FirstWrite(e.record, readings(k)).0 == ManualReview
    ensures Traced(e, MoveEntry(e, ManualReview, FirstWrite(e.record, readings(k)).1, readings(k + 1)), was, was, deliveries, verdicts,
                   evidence, answer, readings, k)
  {
    hide Reviewed, MoveEntry;
    FirstStop(e.record, readings(k));
    ReviewJournal(e, "unsafe_unknown", readings, k);
    ReviewJournal(e, "idempotency_key_retention_expired", readings, k);
  }

  lemma MovedFields(e: Entry, target: Status, data: Metadata, now: int)
    ensures MoveEntry(e, target, data, now).record == e.record.(status := target, version := e.record.version + 1, updatedAt := now)
  {
  }

  lemma TruthfulIsTrue(t: Target, effect: Record, verdict: Verdict)
    ensures Truthful(t, effect, verdict) <==> True(t, effect.downstreamKey, verdict)
  {
    if Charged(t, effect.downstreamKey) {
      var x :| x in t.charges && t.charges[x].downstreamKey == effect.downstreamKey;
      assert x in ChargesFor(t, effect.downstreamKey);
    }
  }

  /** Where an effect goes first, by its class and the instant of the check. */
  lemma FirstStop(effect: Record, checkedAt: int)
    ensures var retention := effect.contract.keyRetention;
            FirstWrite(effect, checkedAt) ==
              match effect.contract.safety
              case Unsafe => (ManualReview, map["reason" := JStr("unsafe_unknown")])
              case Idempotent =>
                if retention.Some? && checkedAt <= effect.createdAt + retention.value
                then (Dispatching, map["reason" := JStr("idempotent_redispatch")])
                else (ManualReview, map["reason" := JStr("idempotency_key_retention_expired")])
              case _ => (Reconciling, map["reason" := JStr("authoritative_probe")])
  {
  }

  lemma RedispatchJournal(e: Entry, checkedAt: int, answer: Answer, readings: nat -> int, k: nat)
    ensures var e1 := MoveEntry(e, Dispatching, map["reason" := JStr("idempotent_redispatch")], readings(k + 1));
            var e2 := AttemptEntry(e1, "reconciler", readings(k + 2));
            var attemptId := Identifiers.AttemptId(e.record.effectId, |e1.attempts| + 1);
            var (target, data) := Outcome(Party.Reconciler(checkedAt), e1.record, attemptId, answer);
            Redispatched(e, MoveEntry(e2, target, data, readings(k + 4)), answer, readings, k)
  {
    hide Digits;
    var e1 := MoveEntry(e, Dispatching, map["reason" := JStr("idempotent_redispatch")], readings(k + 1));
    var e2 := AttemptEntry(e1, "reconciler", readings(k + 2));
    assert e2.events == e.events + [e1.events[|e.events|], e2.events[|e.events| + 1]];
  }

  lemma ProbeJournal(e: Entry, verdict: Verdict, evidence: Metadata, readings: nat -> int, k: nat)
    ensures var e1 := MoveEntry(e, Reconciling, map["reason" := JStr("authoritative_probe")], readings(k + 1));
            var (target, data) := Judgement(verdict, evidence);
            ProbedAndJudged(e, MoveEntry(e1, target, data, readings(k + 2)), verdict, evidence, readings, k)
  {
  }

  lemma ReviewJournal(e: Entry, reason: string, readings: nat -> int, k: nat)
    ensures Reviewed(e, MoveEntry(e, ManualReview, map["reason" := JStr(reason)], readings(k + 1)), reason, readings, k)
  {
  }

  // ---------------------------------------------------------------- one write at a time

  /** The clock reads on: the next step of the protocol happens at its next reading. */
  lemma ReadOn(clock: Clock, m: System, run: seq<Label>, now: int, l: Label)
    requires After(m, run).clock <= now && !l.Tick? && Nondecreasing(clock.readings)
    requires clock.taken > 0 && now == clock.readings(clock.taken - 1)
    ensures After(m, run + Timed(now, l)) == Next(After(m, run).(clock := now), l)
    ensures After(m, run + Timed(now, l)).clock <= clock.readings(clock.taken)
  {
    hide Next, After;
    TimedStep(m, run, now, l);
    ClockStands(After(m, run).(clock := now), l);
  }

  /** The state of a reconciliation whose writes so far are run. */
  ghost predicate Reached(store: InMemoryStore, adapter: Adapter, clock: Clock, m: System, run: seq<Label>)
    reads store, adapter, clock
  {
    Embodies(store, adapter, clock, After(m, run))
  }

  /** The call a redispatch makes and the write of its answer. */
  method Redispatch(store: InMemoryStore, adapter: Adapter, clock: Clock, dispatching: Record, checkedAt: int,
                    ghost m: System, ghost a: nat, ghost before: seq<Label>)
    returns (r: Result<Record, StoreError>, ghost run: seq<Label>, ghost answer: Answer)
    requires Reached(store, adapter, clock, m, before)
    requires Pc(After(m, before), a) == Admitted(Party.Reconciler(checkedAt), dispatching, []) && Holding(After(m, before), dispatching)
    modifies store, adapter, clock
    ensures before <= run && Reached(store, adapter, clock, m, run) && Pc(After(m, run), a).Idle?
    ensures dispatching.effectId in After(m, run).ledger.entries && r == Ok(Current(After(m, run), dispatching.effectId))
    ensures dispatching.effectId in After(m, before).ledger.entries
    ensures var id, j, readings := dispatching.effectId, old(clock.taken), clock.readings;
            var e := AttemptEntry(After(m, before).ledger.entries[id], "reconciler", readings(j));
            var attemptId := Identifiers.AttemptId(id, |After(m, before).ledger.entries[id].attempts| + 1);
            var (target, data) := Outcome(Party.Reconciler(checkedAt), dispatching, attemptId, answer);
            && After(m, run).ledger.entries[id] == MoveEntry(e, target, data, readings(j + 2))
            && Delivered(old(adapter.target), adapter.target, dispatching, adapter.deliveries(old(adapter.dispatches)), answer, readings(j + 1))
    ensures adapter.dispatches == old(adapter.dispatches) + 1 && adapter.probes == old(adapter.probes)
  {
    hide Delivered, Next, After, Deliver, Identifiers.AttemptId, MoveEntry, AttemptEntry, LedgerOk, Outcome, Nondecreasing, Holding,
         InMemoryStore.Valid, InMemoryStore.Model, Attempts;
    var party := Party.Reconciler(checkedAt);
    var now := clock.Now();
    LaterReading(clock.readings, clock.taken - 1, clock.taken);
    run := before + Timed(now, Label.Attempt(a));
    HoldingAnyTime(After(m, before), dispatching, now);
    AttemptWorks(After(m, before).(clock := now), a, party, dispatching, []);
    ReadOn(clock, m, before, now, Label.Attempt(a));
    var started := store.StartAttempt(dispatching.effectId, dispatching.version, "reconciler", now);
    r, run, answer := CallAndRecord(store, adapter, clock, dispatching, checkedAt, started.value, m, a, run);
  }

  lemma HoldingAnyTime(m: System, rec: Record, now: int)
    requires Holding(m, rec)
    ensures Holding(m.(clock := now), rec)
  {
  }

  method CallAndRecord(store: InMemoryStore, adapter: Adapter, clock: Clock, dispatching: Record, checkedAt: int, attemptId: string,
                       ghost m: System, ghost a: nat, ghost before: seq<Label>)
    returns (r: Result<Record, StoreError>, ghost run: seq<Label>, ghost answer: Answer)
    requires Reached(store, adapter, clock, m, before)
    requires Pc(After(m, before), a) == Calling(Party.Reconciler(checkedAt), dispatching, attemptId, []) && Holding(After(m, before), dispatching)
    modifies store, adapter, clock
    ensures before <= run && Reached(store, adapter, clock, m, run) && Pc(After(m, run), a).Idle?
    ensures dispatching.effectId in After(m, run).ledger.entries && r == Ok(Current(After(m, run), dispatching.effectId))
    ensures dispatching.effectId in After(m, before).ledger.entries
    ensures var j, readings := old(clock.taken), clock.readings;
            var (target, data) := Outcome(Party.Reconciler(checkedAt), dispatching, attemptId, answer);
            && After(m, run).ledger.entries[dispatching.effectId]
               == MoveEntry(After(m, before).ledger.entries[dispatching.effectId], target, data, readings(j + 1))
            && Delivered(old(adapter.target), adapter.target, dispatching, adapter.deliveries(old(adapter.dispatches)), answer, readings(j))
    ensures adapter.dispatches == old(adapter.dispatches) + 1 && adapter.probes == old(adapter.probes)
  {
    hide Delivered, MoveEntry, Outcome, Next, After, Deliver, LedgerOk, Nondecreasing, Holding,
         InMemoryStore.Valid, InMemoryStore.Model;
    ghost var delivery := adapter.deliveries(adapter.dispatches);
    var now := clock.Now();
    LaterReading(clock.readings, clock.taken - 1, clock.taken);
    HoldingAnyTime(After(m, before), dispatching, now);
    CallWorks(After(m, before).(clock := now), a, Party.Reconciler(checkedAt), dispatching, attemptId, [], delivery);
    ReadOn(clock, m, before, now, Call(a, delivery));
    var seen := adapter.Dispatch(dispatching, now);
    answer := seen;
    r, run := RecordCall(store, adapter, clock, dispatching, checkedAt, attemptId, seen, m, a, before + Timed(now, Call(a, delivery)));
  }

  method RecordCall(store: InMemoryStore, adapter: Adapter, clock: Clock, dispatching: Record, checkedAt: int, attemptId: string,
                    answer: Answer, ghost m: System, ghost a: nat, ghost before: seq<Label>)
    returns (r: Result<Record, StoreError>, ghost run: seq<Label>)
    requires Reached(store, adapter, clock, m, before) && Holding(After(m, before), dispatching)
    requires Pc(After(m, before), a) == Reporting(Party.Reconciler(checkedAt), dispatching, attemptId, answer, [])
    modifies store, clock
    ensures before <= run && Reached(store, adapter, clock, m, run) && Pc(After(m, run), a).Idle?
    ensures dispatching.effectId in After(m, run).ledger.entries && r == Ok(Current(After(m, run), dispatching.effectId))
    ensures dispatching.effectId in After(m, before).ledger.entries
    ensures var (target, data) := Outcome(Party.Reconciler(checkedAt), dispatching, attemptId, answer);
            After(m, run).ledger.entries[dispatching.effectId]
            == MoveEntry(After(m, before).ledger.entries[dispatching.effectId], target, data, clock.readings(old(clock.taken)))
  {
    hide Next, After, MoveEntry, LedgerOk, Outcome, Nondecreasing, Holding, Transition,
         InMemoryStore.Valid, InMemoryStore.Model;
    HoldingKnown(After(m, before), dispatching);
    var party := Party.Reconciler(checkedAt);
    var now := clock.Now();
    LaterReading(clock.readings, clock.taken - 1, clock.taken);
    HoldingAnyTime(After(m, before), dispatching, now);
    ReportWorks(After(m, before).(clock := now), a, party, dispatching, attemptId, answer, []);
    ReadOn(clock, m, before, now, Report(a));
    run := before + Timed(now, Report(a));
    r := RecordAnswer(store, now, dispatching, checkedAt, attemptId, answer);
  }

  lemma HoldingKnown(m: System, rec: Record)
    requires Holding(m, rec)
    ensures rec.effectId in m.ledger.entries && rec == m.ledger.entries[rec.effectId].record
  {
  }

  method RecordAnswer(store: InMemoryStore, now: int, dispatching: Record, checkedAt: int, attemptId: string, answer: Answer)
    returns (r: Result<Record, StoreError>)
    requires store.Valid()
    modifies store
    ensures store.Valid()
    ensures var (target, data) := Outcome(Party.Reconciler(checkedAt), dispatching, attemptId, answer);
            (store.Model(), r) == Transition(old(store.Model()), dispatching.effectId, dispatching.version, target, data, now)
  {
    hide LedgerOk, Transition, CommittedData, UnconfirmedData, FailureData, Writes;
    match answer
    case Confirmed(x) =>
      r := store.Transition(dispatching.effectId, dispatching.version, Succeeded, CommittedData(attemptId, x), now);
    case Unconfirmed =>
      r := store.Transition(dispatching.effectId, dispatching.version, OutcomeUnknown, UnconfirmedData(attemptId), now);
    case Rejected(error) =>
      r := store.Transition(dispatching.effectId, dispatching.version, Retryable,
                            FailureData(attemptId, error, "proven_non_commit_after_redispatch"), now);
    case Ambiguous(error) =>
      r := store.Transition(dispatching.effectId, dispatching.version, OutcomeUnknown,
                            FailureData(attemptId, error, "ambiguous_redispatch"), now);
  }

  method RecordVerdict(store: InMemoryStore, reconciling: Record, verdict: Verdict, evidence: Metadata, now: int)
    returns (r: Result<Record, StoreError>)
    requires store.Valid()
    modifies store
    ensures store.Valid()
    ensures var (target, data) := Judgement(verdict, evidence);
            (store.Model(), r) == Transition(old(store.Model()), reconciling.effectId, reconciling.version, target, data, now)
  {
    hide LedgerOk, Transition, ProbedData, Writes;
    match verdict
    case ProvenCommitted(x) =>
      r := store.Transition(reconciling.effectId, reconciling.version, Succeeded, ProbedData(x, evidence), now);
    case ProvenAbsent =>
      r := store.Transition(reconciling.effectId, reconciling.version, Prepared, map["evidence" := JObj(evidence)], now);
    case NoProof =>
      r := store.Transition(reconciling.effectId, reconciling.version, ManualReview,
                            map["evidence" := JObj(evidence), "reason" := JStr("probe_unknown")], now);
  }

  lemma ProbeWorks(m: System, a: nat, rec: Record, verdict: Verdict, evidence: Metadata)
    requires Pc(m, a) == Probing(rec) && Truthful(m.target, rec, verdict)
    ensures Next(m, Probe(a, verdict, evidence)) == Put(m, a, Judging(rec, verdict, evidence))
  {
    hide Truthful;
  }

  /** The probe and the write of its verdict. */
  method ProbeAndJudge(store: InMemoryStore, adapter: Adapter, clock: Clock, reconciling: Record, evidence: Metadata,
                       ghost m: System, ghost a: nat, ghost before: seq<Label>)
    returns (r: Result<Record, StoreError>, ghost run: seq<Label>)
    requires Reached(store, adapter, clock, m, before) && Pc(After(m, before), a) == Probing(reconciling)
    requires reconciling.effectId in After(m, before).ledger.entries && reconciling == Current(After(m, before), reconciling.effectId)
    requires reconciling.status == Reconciling
    modifies store, adapter, clock
    ensures before <= run && Reached(store, adapter, clock, m, run) && Pc(After(m, run), a).Idle?
    ensures reconciling.effectId in After(m, run).ledger.entries && r == Ok(Current(After(m, run), reconciling.effectId))
    ensures var j, readings := old(clock.taken), clock.readings;
            var said := adapter.verdicts(old(adapter.probes));
            var (target, data) := Judgement(if True(adapter.target, reconciling.downstreamKey, said) then said else NoProof, evidence);
            After(m, run).ledger.entries[reconciling.effectId]
            == MoveEntry(After(m, before).ledger.entries[reconciling.effectId], target, data, readings(j))
    ensures adapter.target == old(adapter.target) && adapter.dispatches == old(adapter.dispatches)
    ensures adapter.probes == old(adapter.probes) + 1
  {
    hide MoveEntry, True, LedgerOk, Transition, Truthful, Judgement, Next, After, Nondecreasing,
         InMemoryStore.Valid, InMemoryStore.Model;
    TruthfulIsTrue(adapter.target, reconciling, adapter.verdicts(adapter.probes));
    var verdict := adapter.Probe(reconciling);
    ghost var probed := before + [Probe(a, verdict, evidence)];
    ProbeWorks(After(m, before), a, reconciling, verdict, evidence);
    AfterStep(m, before, Probe(a, verdict, evidence));
    var now := clock.Now();
    LaterReading(clock.readings, clock.taken - 1, clock.taken);
    JudgeWorks(After(m, probed).(clock := now), a, reconciling, verdict, evidence);
    ReadOn(clock, m, probed, now, Judge(a));
    run := probed + Timed(now, Judge(a));
    r := RecordVerdict(store, reconciling, verdict, evidence, now);
  }

  /** What follows a first write that went through: the journal of the whole reconciliation, begun at reading k. */
  method FollowUp(store: InMemoryStore, adapter: Adapter, clock: Clock, effect: Record, moved: Record, evidence: Metadata, checkedAt: int,
                  ghost m: System, ghost a: nat, ghost before: seq<Label>, ghost k: nat)
    returns (r: Result<Record, StoreError>, ghost run: seq<Label>, ghost answer: Answer)
    requires Reached(store, adapter, clock, m, before) && WroteFirst(After(m, before), a, effect, moved, checkedAt)
    requires clock.taken == k + 2 && checkedAt == clock.readings(k)
    requires effect.effectId in m.ledger.entries && m.ledger.entries[effect.effectId].record == effect
    requires After(m, before).ledger.entries[effect.effectId]
          == MoveEntry(m.ledger.entries[effect.effectId], FirstWrite(effect, checkedAt).0, FirstWrite(effect, checkedAt).1, clock.readings(k + 1))
    modifies store, adapter, clock
    ensures before <= run && Reached(store, adapter, clock, m, run) && Pc(After(m, run), a).Idle?
    ensures effect.effectId in After(m, run).ledger.entries && r == Ok(Current(After(m, run), effect.effectId))
    ensures Traced(m.ledger.entries[effect.effectId], After(m, run).ledger.entries[effect.effectId],
                   AdapterState(old(adapter.target), old(adapter.dispatches), old(adapter.probes)),
                   AdapterState(adapter.target, adapter.dispatches, adapter.probes),
                   adapter.deliveries, adapter.verdicts, evidence, answer, clock.readings, k)
  {
    hide Next, LedgerOk, After, Reached, ReasonData, Holding, RetentionValid, Traced, FirstWrite, MoveEntry, AttemptEntry, Outcome, Judgement,
         True, Truthful, Delivered, Identifiers.AttemptId;
    run := before;
    answer := Unconfirmed;
    ghost var e, was := m.ledger.entries[effect.effectId], AdapterState(adapter.target, adapter.dispatches, adapter.probes);
    MovedFields(e, FirstWrite(effect, checkedAt).0, FirstWrite(effect, checkedAt).1, clock.readings(k + 1));
    if moved.status == Dispatching {
      HoldingIntro(After(m, before), moved);
      r, run, answer := Redispatch(store, adapter, clock, moved, checkedAt, m, a, before);
      TraceOfRedispatch(e, After(m, run).ledger.entries[effect.effectId], was,
                        AdapterState(adapter.target, adapter.dispatches, adapter.probes),
                        adapter.deliveries, adapter.verdicts, evidence, answer, clock.readings, k);
    } else if moved.status == Reconciling {
      r, run := ProbeAndJudge(store, adapter, clock, moved, evidence, m, a, before);
      TraceOfProbe(e, After(m, run).ledger.entries[effect.effectId], was, adapter.deliveries, adapter.verdicts, evidence, answer, clock.readings, k);
    } else {
      r := Ok(moved);
      TraceOfReview(e, was, adapter.deliveries, adapter.verdicts, evidence, answer, clock.readings, k);
    }
  }

  /** The state after a first write that went through. */
  ghost predicate WroteFirst(m: System, a: nat, effect: Record, moved: Record, checkedAt: int) {
    && moved.effectId == effect.effectId && effect.effectId in m.ledger.entries
    && moved == Current(m, effect.effectId) && moved.status == FirstWrite(effect, checkedAt).0
    && match moved.status
       case Dispatching => Pc(m, a) == Admitted(Party.Reconciler(checkedAt), moved, [])
       case Reconciling => Pc(m, a) == Probing(moved)
       case _ => Pc(m, a).Idle?
  }

  /** The retention check and, some time later, the first write. */
  method WriteFirst(store: InMemoryStore, adapter: Adapter, clock: Clock, effect: Record, ghost m: System, ghost a: nat)
    returns (moved: Result<Record, StoreError>, checkedAt: int, ghost run: seq<Label>)
    requires Embodies(store, adapter, clock, m) && Inv(m) && Pc(m, a) == Routing(effect)
    modifies store, clock
    ensures checkedAt == clock.readings(old(clock.taken)) && clock.taken == old(clock.taken) + 2
    ensures Reached(store, adapter, clock, m, run)
    ensures moved.Err? ==> After(m, run) == Put(m.(clock := clock.readings(old(clock.taken) + 1)), a, Idle)
    ensures moved.Ok? ==> WroteFirst(After(m, run), a, effect, moved.value, checkedAt)
    ensures moved.Ok? ==>
              && effect.effectId in m.ledger.entries && m.ledger.entries[effect.effectId].record == effect
              && After(m, run).ledger.entries[effect.effectId]
                 == MoveEntry(m.ledger.entries[effect.effectId], FirstWrite(effect, checkedAt).0, FirstWrite(effect, checkedAt).1,
                              clock.readings(old(clock.taken) + 1))
    ensures moved.Ok? <==> ForUpdate(m.ledger, effect.effectId, effect.version).Ok? && Allowed(effect.status, FirstWrite(effect, checkedAt).0)
  {
    hide MoveEntry, Next, Inv, LedgerOk, Transition, FirstWrite, Allowed, SamePinned, ForUpdate, After, Nondecreasing,
         InMemoryStore.Valid, InMemoryStore.Model, Writes;
    checkedAt := clock.Now();
    var now := clock.Now();
    LaterReading(clock.readings, clock.taken - 2, clock.taken - 1);
    LaterReading(clock.readings, clock.taken - 1, clock.taken);
    var none: seq<Label> := [];
    EmptyRun(m);
    InvAnyTime(m, now);
    RouteWorks(m.(clock := now), a, effect, checkedAt);
    FirstWriteDecides(m.(clock := now), a, effect, checkedAt);
    FirstWriteMoves(m, a, effect, checkedAt, now);
    ReadOn(clock, m, none, now, Route(a, checkedAt));
    run := none + Timed(now, Route(a, checkedAt));
    var (target, data) := FirstWrite(effect, checkedAt);
    moved := store.Transition(effect.effectId, effect.version, target, data, now);
  }

  lemma InvAnyTime(m: System, now: int)
    requires Inv(m)
    ensures Inv(m.(clock := now))
  {
    hide LedgerOk, ActorOk;
  }

  /** The first write moves the entry of the snapshot's effect, which is still the snapshot. */
  lemma FirstWriteMoves(m: System, a: nat, effect: Record, checkedAt: int, now: int)
    requires Inv(m) && Pc(m, a) == Routing(effect)
    ensures var (target, data) := FirstWrite(effect, checkedAt);
            var (l, r) := Transition(m.ledger, effect.effectId, effect.version, target, data, now);
            r.Ok? ==>
              && effect.effectId in m.ledger.entries && m.ledger.entries[effect.effectId].record == effect
              && effect.effectId in l.entries && l.entries[effect.effectId] == MoveEntry(m.ledger.entries[effect.effectId], target, data, now)
  {
    hide LedgerOk, UniqueOwners, MoveEntry, FirstWrite, Allowed, SamePinned;
    assert ActorOk(m.ledger, Pc(m, a));
  }

  /**
   * Resolves one effect from a snapshot that may be stale: either the first write loses and nothing
   * changes, or the whole resolution goes through and leaves exactly the trace of its safety class.
   */
  method ReconcileOnce(store: InMemoryStore, adapter: Adapter, clock: Clock, effect: Record, evidence: Metadata,
                       ghost m: System, ghost a: nat)
    returns (r: Result<Record, StoreError>, ghost run: seq<Label>, ghost answer: Answer)
    requires Embodies(store, adapter, clock, m) && Inv(m) && Pc(m, a) == Routing(effect)
    modifies store, adapter, clock
    ensures Embodies(store, adapter, clock, After(m, run)) && Pc(After(m, run), a).Idle?
    ensures r.Err? ==> store.Model() == m.ledger && adapter.target == m.target
                       && adapter.dispatches == old(adapter.dispatches) && adapter.probes == old(adapter.probes)
    ensures var checkedAt, safety, retention := clock.readings(old(clock.taken)), effect.contract.safety, effect.contract.keyRetention;
            var inTime := retention.Some? && checkedAt <= effect.createdAt + retention.value;
            r.Ok? <==>
              && effect.effectId in m.ledger.entries && m.ledger.entries[effect.effectId].record == effect
              && Allowed(effect.status, match safety
                                        case Unsafe => ManualReview
                                        case Idempotent => if inTime then Dispatching else ManualReview
                                        case _ => Reconciling)
    ensures r.Ok? ==>
              && effect.effectId in store.Model().entries && r.value == store.Model().entries[effect.effectId].record
              && Traced(m.ledger.entries[effect.effectId], store.Model().entries[effect.effectId],
                        AdapterState(old(adapter.target), old(adapter.dispatches), old(adapter.probes)),
                        AdapterState(adapter.target, adapter.dispatches, adapter.probes),
                        adapter.deliveries, adapter.verdicts, evidence, answer, clock.readings, old(clock.taken))
  {
    hide Next, Inv, After, FirstWrite, Allowed, ForUpdate, WroteFirst, Pc, Traced, MoveEntry, Nondecreasing,
         InMemoryStore.Valid, InMemoryStore.Model;
    ghost var k := clock.taken;
    FirstStop(effect, clock.readings(k));
    CurrentSnapshot(m, a, effect);
    var moved, checkedAt;
    moved, checkedAt, run := WriteFirst(store, adapter, clock, effect, m, a);
    answer := Unconfirmed;
    if moved.Err? {
      IdleNow(m, a, clock.readings(clock.taken - 1));
      return moved, run, answer;
    }
    r, run, answer := FollowUp(store, adapter, clock, effect, moved.value, evidence, checkedAt, m, a, run, k);
  }

  /** A snapshot is current exactly when its version is. */
  lemma CurrentSnapshot(m: System, a: nat, effect: Record)
    requires Inv(m) && Pc(m, a) == Routing(effect)
    ensures ForUpdate(m.ledger, effect.effectId, effect.version).Ok?
       <==> effect.effectId in m.ledger.entries && m.ledger.entries[effect.effectId].record == effect
  {
    hide LedgerOk, UniqueOwners, SamePinned;
    assert ActorOk(m.ledger, Pc(m, a));
  }

  lemma IdleNow(m: System, a: nat, now: int)
    ensures Pc(Put(m.(clock := now), a, Idle), a).Idle?
  {
  }

  /** The first write goes through exactly when the snapshot is current and its status admits the route. */
  lemma FirstWriteDecides(m: System, a: nat, effect: Record, checkedAt: int)
    requires Inv(m) && Pc(m, a) == Routing(effect)
    ensures var (target, data) := FirstWrite(effect, checkedAt);
            Transition(m.ledger, effect.effectId, effect.version, target, data, m.clock).1.Ok?
            <==> ForUpdate(m.ledger, effect.effectId, effect.version).Ok? && Allowed(effect.status, target)
  {
    hide LedgerOk, UniqueOwners, MoveEntry, FirstWrite, Allowed;
    assert ActorOk(m.ledger, Pc(m, a));
  }

  lemma HoldingIntro(m: System, rec: Record)
    requires rec.effectId in m.ledger.entries && rec == Current(m, rec.effectId) && rec.status == Dispatching
    ensures Holding(m, rec)
  {
  }
}
