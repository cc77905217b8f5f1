/**
 * The processes of the crash matrix (examples/crash_matrix/worker.py, runner.py) on the store and the
 * target in place: the worker that dies, the declaration of its effect as unknown, and the verdict.
 */
module CrashWorker {
  import opened Prelude
  import opened PyValues
  import opened Canonical
  import opened Models
  import opened StateMachine
  import opened Ledger
  import opened LedgerProofs
  import opened StoreContracts
  import opened Target
  import opened DurableTarget
  import opened MemoryStore
  import Protocol
  import CrashMatrix

  /** Where the worker process dies. */
  datatype Failpoint = AfterClaim | AfterDispatching | BeforeTargetCommit | AfterTargetCommitBeforeReceipt | Nowhere

  const LEASE: int := 1_000_000

  /** What a worker that died at a point leaves of the effect it had claimed. */
  ghost predicate Left(e: Entry, t: Durable, e': Entry, t': Durable, point: Failpoint) {
    && SamePinned(e.record, e'.record)
    && (point.AfterClaim? ==> e'.record.status == e.record.status && e'.attempts == e.attempts && t' == t)
    && (point.AfterDispatching? ==> e'.record.status == Dispatching && e'.attempts == e.attempts && t' == t)
    && (point.BeforeTargetCommit? ==> e'.record.status == Dispatching && |e'.attempts| == |e.attempts| + 1 && t' == t)
    && (point.AfterTargetCommitBeforeReceipt? ==>
          && e'.record.status == Dispatching && |e'.attempts| == |e.attempts| + 1
          && t' == CommitPayload(t, e.record.downstreamKey, PayloadOf(e.record)).0)
    && (point.Nowhere? ==>
          && |e'.attempts| == |e.attempts| + 1
          && t' == CommitPayload(t, e.record.downstreamKey, PayloadOf(e.record)).0
          && e'.record.status == if CommitPayload(t, e.record.downstreamKey, PayloadOf(e.record)).1.Ok? then Succeeded else Dispatching)
  }

  lemma FirstDueFacts(l: Ledger, order: seq<string>, now: int)
    requires LedgerOk(l)
    ensures var ids := FirstDue(l, order, now, 1);
            |ids| <= 1 && forall id :: id in ids ==> id in l.entries && Due(l.entries[id], now) && l.entries[id].record.effectId == id
  {
    hide EntryOk, IdentityOk, OrderOk, Due;
    forall id | id in FirstDue(l, order, now, 1)
      ensures l.entries[id].record.effectId == id
    {
      EntryFacts(l, id);
    }
  }

  /** A worker process: one claimed effect, taken as far as it lives. */
  method RunOnce(store: InMemoryStore, target: DurableTarget, worker: string, now: int, failpoint: Failpoint)
    returns (exit: nat)
    requires store.Valid() && target.Valid()
    modifies store, target
    ensures store.Valid() && target.Valid()
    ensures var ids := FirstDue(old(store.Model()), old(store.order), now, 1);
            if ids == [] then exit == 2 && store.Model() == old(store.Model()) && target.Value() == old(target.Value())
            else
              && |ids| == 1 && ids[0] in old(store.Model()).entries && ids[0] in store.Model().entries
              && Left(old(store.Model()).entries[ids[0]], old(target.Value()), store.Model().entries[ids[0]], target.Value(), failpoint)
              && (failpoint.AfterClaim? ==> exit == 137 && store.Model().entries[ids[0]].lease == Some(Lease(worker, now + 1_000_000)))
  {
    hide LedgerOk, MemoryStore.Tables.Represents, Minted, CommitPayload, PayloadOf, FirstDue, DurableOk, Identifiers.AttemptId, HandsOut;
    ghost var ids := FirstDue(store.Model(), store.order, now, 1);
    ghost var l := store.Model();
    FirstDueFacts(l, store.order, now);
    ClaimNone(l, worker, now, LEASE);
    var claimed := store.ClaimDue(worker, now, LEASE, 1);
    if claimed == [] {
      return 2;
    }
    assert |ids| == 1 && ids[0] in ids;
    ClaimedFacts(l, ids, worker, now, LEASE);
    ghost var e, mid := l.entries[ids[0]], store.Model().entries[ids[0]];
    ghost var before := target.Value();
    exit := 137;
    if failpoint == AfterClaim {
      return;
    }
    exit := Dispatch(store, target, worker, claimed[0], now, failpoint);
    LeftAfterClaim(e, mid, before, store.Model().entries[ids[0]], target.Value(), failpoint);
  }

  /** A fenced write by the only writer goes through. */
  lemma WriteFacts(l: Ledger, rec: Record, target: Status, data: Metadata, now: int)
    requires rec.effectId in l.entries && l.entries[rec.effectId].record == rec && Allowed(rec.status, target)
    ensures var (l', r) := Transition(l, rec.effectId, rec.version, target, data, now);
            && r.Ok? && rec.effectId in l'.entries && l'.entries[rec.effectId].record == r.value
            && SamePinned(rec, r.value) && r.value.status == target
            && l'.entries[rec.effectId].attempts == l.entries[rec.effectId].attempts
  {
  }

  lemma AttemptFacts(l: Ledger, rec: Record, worker: string, now: int)
    requires rec.effectId in l.entries && l.entries[rec.effectId].record == rec
    ensures var (l', r) := StartAttempt(l, rec.effectId, rec.version, worker, now);
            && r.Ok? && rec.effectId in l'.entries && l'.entries[rec.effectId].record == rec
            && |l'.entries[rec.effectId].attempts| == |l.entries[rec.effectId].attempts| + 1
  {
    hide Identifiers.AttemptId;
  }

  /** A claim changes nothing a dead worker leaves behind. */
  lemma LeftAfterClaim(e: Entry, claimed: Entry, t: Durable, e': Entry, t': Durable, point: Failpoint)
    requires SamePinned(e.record, claimed.record) && claimed.attempts == e.attempts && claimed.record.status == e.record.status
    requires Left(claimed, t, e', t', point)
    ensures Left(e, t, e', t', point)
  {
    hide PayloadOf, CommitPayload;
    CrashMatrix.SamePayload(e.record, claimed.record);
  }

  lemma ClaimedFacts(l: Ledger, ids: seq<string>, worker: string, now: int, leaseFor: int)
    requires |ids| == 1 && ids[0] in l.entries
    ensures var l', rec := ClaimAll(l, ids, worker, now, leaseFor), ClaimedRecords(l, ids, worker, now, leaseFor)[0];
            && ids[0] in l'.entries && l'.entries[ids[0]].record == rec
            && SamePinned(l.entries[ids[0]].record, rec) && rec.status == l.entries[ids[0]].record.status
            && l'.entries[ids[0]].attempts == l.entries[ids[0]].attempts
            && l'.entries[ids[0]].lease == Some(Lease(worker, now + leaseFor))
  {
    assert ids[0] in ids;
  }

  /** The dangerous sequence: DISPATCHING, attempt row, target, receipt. */
  method Dispatch(store: InMemoryStore, target: DurableTarget, worker: string, effect: Record, now: int, failpoint: Failpoint)
    returns (exit: nat)
    requires store.Valid() && target.Valid() && failpoint != AfterClaim
    requires effect.effectId in store.Model().entries && store.Model().entries[effect.effectId].record == effect
    requires Claimable(effect.status)
    modifies store, target
    ensures store.Valid() && target.Valid()
    ensures effect.effectId in store.Model().entries
    ensures Left(old(store.Model()).entries[effect.effectId], old(target.Value()), store.Model().entries[effect.effectId], target.Value(), failpoint)
  {
    hide LedgerOk, MemoryStore.Tables.Represents, Minted, CommitPayload, PayloadOf, DurableOk, Transition, StartAttempt, SamePinned,
         Protocol.WorkerData, Protocol.CommittedData, Writes;
    exit := 137;
    ghost var e := store.Model().entries[effect.effectId];
    WriteFacts(store.Model(), effect, Dispatching, Protocol.WorkerData(worker), now);
    PinnedId(effect);
    var begun := store.Transition(effect.effectId, effect.version, Dispatching, Protocol.WorkerData(worker), now);
    var dispatching := begun.value;
    CrashMatrix.SamePayload(effect, dispatching);
    if failpoint == AfterDispatching {
      return;
    }
    exit := AttemptAndCommit(store, target, worker, dispatching, now, failpoint);
    PinnedChain(effect, dispatching, store.Model().entries[effect.effectId].record);
  }

  method AttemptAndCommit(store: InMemoryStore, target: DurableTarget, worker: string, dispatching: Record, now: int, failpoint: Failpoint)
    returns (exit: nat)
    requires store.Valid() && target.Valid() && dispatching.status == Dispatching
    requires dispatching.effectId in store.Model().entries && store.Model().entries[dispatching.effectId].record == dispatching
    requires failpoint != AfterClaim && failpoint != AfterDispatching
    modifies store, target
    ensures store.Valid() && target.Valid()
    ensures dispatching.effectId in store.Model().entries
    ensures Left(old(store.Model()).entries[dispatching.effectId], old(target.Value()),
                 store.Model().entries[dispatching.effectId], target.Value(), failpoint)
  {
    hide LedgerOk, MemoryStore.Tables.Represents, Minted, CommitPayload, PayloadOf, DurableOk, StartAttempt, SamePinned,
         InMemoryStore.Valid, InMemoryStore.Model, DurableTarget.Valid, Attempts;
    exit := 137;
    PinnedSelf(dispatching);
    AttemptFacts(store.Model(), dispatching, worker, now);
    var started := store.StartAttempt(dispatching.effectId, dispatching.version, worker, now);
    if failpoint == BeforeTargetCommit {
      return;
    }
    exit := CommitAndRecord(store, target, dispatching, started.value, now, failpoint);
  }

  method CommitAndRecord(store: InMemoryStore, target: DurableTarget, dispatching: Record, attemptId: string, now: int, failpoint: Failpoint)
    returns (exit: nat)
    requires store.Valid() && target.Valid() && dispatching.status == Dispatching
    requires dispatching.effectId in store.Model().entries && store.Model().entries[dispatching.effectId].record == dispatching
    modifies store, target
    ensures store.Valid() && target.Valid()
    ensures dispatching.effectId in store.Model().entries
    ensures var (t', r) := CommitPayload(old(target.Value()), dispatching.downstreamKey, PayloadOf(dispatching));
            var e, e' := old(store.Model()).entries[dispatching.effectId], store.Model().entries[dispatching.effectId];
            && target.Value() == t' && SamePinned(dispatching, e'.record) && e'.attempts == e.attempts
            && e'.record.status == if r.Ok? && failpoint != AfterTargetCommitBeforeReceipt then Succeeded else Dispatching
  {
    hide LedgerOk, MemoryStore.Tables.Represents, Minted, CommitPayload, PayloadOf, DurableOk, Transition, SamePinned,
         Protocol.CommittedData, Writes;
    PinnedSelf(dispatching);
    exit := 137;
    var committed := target.Commit(dispatching.downstreamKey, PayloadOf(dispatching));
    if failpoint == AfterTargetCommitBeforeReceipt || committed.Err? {
      return;
    }
    var data := Protocol.CommittedData(attemptId, committed.value);
    WriteFacts(store.Model(), dispatching, Succeeded, data, now);
    var recorded := store.Transition(dispatching.effectId, dispatching.version, Succeeded, data, now);
    exit := 0;
  }

  lemma PinnedSelf(r: Record)
    ensures SamePinned(r, r)
  {
  }

  lemma PinnedId(r: Record)
    ensures forall r': Record :: SamePinned(r, r') ==> r'.effectId == r.effectId
  {
  }

  lemma PinnedChain(a: Record, b: Record, c: Record)
    requires SamePinned(a, b) && SamePinned(b, c)
    ensures SamePinned(a, c)
  {
  }

  // ---------------------------------------------------------------- declaring the outcome unknown

  datatype MarkError = Disappeared | NotDispatching(status: Status) | Refused(error: StoreError)

  function Mark(l: Ledger, tenantId: string, id: string, now: int): (Ledger, Result<Record, MarkError>) {
    match Get(l, tenantId, id)
    case None => (l, Err(Disappeared))
    case Some(current) =>
      if current.status != Dispatching then (l, Err(NotDispatching(current.status)))
      else
        var (l', r) := Transition(l, current.effectId, current.version, OutcomeUnknown,
                                  Protocol.ReasonData("stale_dispatching_worker_died"), now);
        (l', if r.Ok? then Ok(r.value) else Err(Refused(r.error)))
  }

  method MarkUnknown(store: InMemoryStore, tenantId: string, id: string, now: int) returns (r: Result<Record, MarkError>)
    requires store.Valid()
    modifies store
    ensures store.Valid()
    ensures (store.Model(), r) == Mark(old(store.Model()), tenantId, id, now)
  {
    hide LedgerOk, MemoryStore.Tables.Represents, Minted, Protocol.ReasonData, Writes;
    var current := store.Get(tenantId, id);
    if current.None? {
      return Err(Disappeared);
    }
    if current.value.status != Dispatching {
      return Err(NotDispatching(current.value.status));
    }
    var marked := store.Transition(current.value.effectId, current.value.version, OutcomeUnknown,
                                   Protocol.ReasonData("stale_dispatching_worker_died"), now);
    r := if marked.Ok? then Ok(marked.value) else Err(Refused(marked.error));
  }

  /** A worker's death can be declared exactly when it had written DISPATCHING and not yet an outcome. */
  lemma MarkableIff(e: Entry, t: Durable, l: Ledger, id: string, t': Durable, point: Failpoint, now: int)
    requires LedgerOk(l) && id in l.entries && Left(e, t, l.entries[id], t', point) && Claimable(e.record.status)
    ensures Mark(l, e.record.tenantId, id, now).1.Ok? <==> !point.AfterClaim? && !point.Nowhere?
    ensures Mark(l, e.record.tenantId, id, now).1.Ok? ==>
              var l' := Mark(l, e.record.tenantId, id, now).0;
              && LedgerOk(l') && id in l'.entries && l'.entries[id].record.status == OutcomeUnknown
              && l'.entries[id].attempts == l.entries[id].attempts
              && SamePinned(e.record, l'.entries[id].record)
  {
    hide EntryOk, IdentityOk, OrderOk, CommitPayload, PayloadOf, Protocol.ReasonData;
    EntryFacts(l, id);
    StoredIsCanonical(l, id);
    PayloadCanonical(e.record);
    CommitOk(t, e.record);
    var current := l.entries[id].record;
    TransitionKeepsLedger(l, id, current.version, OutcomeUnknown, Protocol.ReasonData("stale_dispatching_worker_died"), now);
  }

  lemma CommitOk(t: Durable, effect: Record)
    requires CanonicalJson(PayloadOf(effect)).Ok?
    ensures CommitPayload(t, effect.downstreamKey, PayloadOf(effect)).1.Ok?
  {
    hide PayloadOf;
  }

  // ---------------------------------------------------------------- the verdict

  predicate Judged(safety: SafetyClass, status: Status, targetCount: nat, targetCalls: nat, attempts: nat) {
    match safety
    case Idempotent => targetCount == 1 && status == Succeeded
    case Reconcilable => targetCount == 1 && targetCalls == 1 && status == Succeeded
    case _ => targetCount <= 1 && targetCalls == 1 && attempts == 1 && status == ManualReview
  }

  /** One commit by an uncalled key. */
  lemma FirstCommit(t: Durable, effect: Record)
    requires DurableOk(t) && CallsFor(t.calls, effect.downstreamKey) == 0
    requires Canonicalizable(effect.request.arguments)
    ensures var t' := CommitPayload(t, effect.downstreamKey, PayloadOf(effect)).0;
            && DurableOk(t') && Count(t'.rows, effect.downstreamKey) == 1
            && CallsFor(t'.calls, effect.downstreamKey) == 1 && Find(t'.rows, effect.downstreamKey).Some?
  {
    hide DurableOk, Find, Count, CallsFor, PayloadOf;
    PayloadCanonical(effect);
    var text := CanonicalJson(PayloadOf(effect)).value;
    var key := effect.downstreamKey;
    CommitKeepsDurable(t, key, text);
    CallsForAppended(t.calls, CommitCall(key, text), key);
    OneRowPerCalledKey(CommitText(t, key, text).0, key);
  }

  lemma CommitAgain(t: Durable, effect: Record)
    requires DurableOk(t) && Find(t.rows, effect.downstreamKey).Some?
    requires Canonicalizable(effect.request.arguments)
    ensures var t' := CommitPayload(t, effect.downstreamKey, PayloadOf(effect)).0;
            && t'.rows == t.rows
            && CallsFor(t'.calls, effect.downstreamKey) == CallsFor(t.calls, effect.downstreamKey) + 1
  {
    hide PayloadOf, CallsFor;
    PayloadCanonical(effect);
    CallsForAppended(t.calls, CommitCall(effect.downstreamKey, CanonicalJson(PayloadOf(effect)).value), effect.downstreamKey);
  }

  /**
   * The shipped matrix passes: the worker dies after the commit and before the receipt, the effect is marked
   * unknown, and any number of recoverers run in any interleaving until they finish. The target holds one charge
   * whatever the class; only an idempotent effect is called again, once, and ends SUCCEEDED if recovery ends by
   * creation plus key retention; if recovery starts after that, it is left to a human. The verdict is favourable.
   */
  lemma MatrixPasses(e: Entry, t: Durable, l: Ledger, t': Durable, id: string, marked: int, clock: int, n: nat,
                     schedule: seq<CrashMatrix.Turn>)
    requires LedgerOk(l) && id in l.entries && Left(e, t, l.entries[id], t', AfterTargetCommitBeforeReceipt)
    requires Claimable(e.record.status) && e.attempts == []
    requires DurableOk(t) && CallsFor(t.calls, e.record.downstreamKey) == 0
    requires n > 0
    requires var l' := Mark(l, e.record.tenantId, id, marked).0;
             CrashMatrix.Finished(CrashMatrix.Recovered(CrashMatrix.Begin(l', t', clock, n), schedule, e.record.tenantId, id))
    ensures var l' := Mark(l, e.record.tenantId, id, marked).0;
            var m := CrashMatrix.Recovered(CrashMatrix.Begin(l', t', clock, n), schedule, e.record.tenantId, id);
            && id in m.ledger.entries
            && var status, attempts := m.ledger.entries[id].record.status, |m.ledger.entries[id].attempts|;
            var count, calls := Count(m.target.rows, e.record.downstreamKey), CallsFor(m.target.calls, e.record.downstreamKey);
            var safety, retention := e.record.contract.safety, e.record.contract.keyRetention;
            var inTime := retention.Some? && m.clock <= e.record.createdAt + retention.value;
            && count == 1
            && (safety == Idempotent && inTime ==> status == Succeeded && calls == 2)
            && (safety == Idempotent && (retention.Some? ==> e.record.createdAt + retention.value < clock) ==> status == ManualReview && calls == 1)
            && (safety in {Reconcilable, Transactional} ==> status == Succeeded && calls == 1 && attempts == 1)
            && (safety == Unsafe ==> status == ManualReview && calls == 1 && attempts == 1)
            && (safety != Transactional && (safety == Idempotent ==> inTime) ==> Judged(safety, status, count, calls, attempts))
  {
    hide LedgerOk, DurableOk, Mark, CommitPayload, PayloadOf, Find, Count, CallsFor, CrashMatrix.Recovered, CrashMatrix.Begin, CrashMatrix.Outcome;
    StoredIsCanonical(l, id);
    MarkableIff(e, t, l, id, t', AfterTargetCommitBeforeReceipt, marked);
    var l' := Mark(l, e.record.tenantId, id, marked).0;
    var unknown := l'.entries[id].record;
    FirstCommit(t, e.record);
    CrashMatrix.CrashRecovery(l', t', clock, n, id, schedule);
    CommitAgain(t', unknown);
  }
}
