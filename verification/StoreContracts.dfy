/**
 * What each store operation promises, in fields and instants: the same promises for the in-memory store
 * and for both table stores. The lemmas prove that the operations of the ledger keep them.
 */
module StoreContracts {
  import opened Prelude
  import Decimal
  import opened Identifiers
  import opened Identity
  import opened Models
  import opened StateMachine
  import opened Ledger
  import opened LedgerProofs

  // ---------------------------------------------------------------- claims

  /** The lease, if any, is over; some dialects ask for strictly after its end. */
  predicate LeaseOver(lease: Option<Lease>, now: int, strict: bool) {
    lease.Some? ==> lease.value.expiresAt < now || (!strict && lease.value.expiresAt == now)
  }

  /** A waiting effect that nobody holds. */
  predicate Free(e: Entry, now: int, strict: bool) {
    e.record.status in {Prepared, Retryable} && LeaseOver(e.lease, now, strict)
  }

  predicate Precedes(order: seq<string>, id: string, id': string) {
    exists i, j :: 0 <= i < j < |order| && order[i] == id && order[j] == id'
  }

  /** One effect goes from free to leased until now + leaseFor, at its next version. */
  ghost predicate Leased(e: Entry, e': Entry, rec: Record, worker: string, now: int, leaseFor: int, strict: bool) {
    && Free(e, now, strict)
    && rec == e.record.(version := e.record.version + 1, updatedAt := now)
    && e' == Entry(rec, Some(Lease(worker, now + leaseFor)), e.attempts,
                   e.events + [Event(|e.events| + 1, rec.version, now, Claimed(worker, now + leaseFor))])
  }

  /** A batch: its effects are leased, in order, first come first served, and nothing else changes. */
  ghost predicate HandsOut(l: Ledger, l': Ledger, claimed: seq<Record>, worker: string, now: int, leaseFor: int, limit: int, strict: bool) {
    && |claimed| <= (if limit > 0 then limit else 0)
    && l'.entries.Keys == l.entries.Keys
    && l'.secret == l.secret && l'.identity == l.identity && l'.order == l.order
    && (forall i :: 0 <= i < |claimed| ==>
          && claimed[i].effectId in l.entries
          && Leased(l.entries[claimed[i].effectId], l'.entries[claimed[i].effectId], claimed[i], worker, now, leaseFor, strict))
    && (forall i, j :: 0 <= i < j < |claimed| ==> Precedes(l.order, claimed[i].effectId, claimed[j].effectId))
    && (forall id :: id in l.entries && (forall i :: 0 <= i < |claimed| ==> claimed[i].effectId != id) ==>
          && l'.entries[id] == l.entries[id]
          && (Free(l.entries[id], now, strict) ==>
                && |claimed| >= limit
                && forall i :: 0 <= i < |claimed| ==> Precedes(l.order, claimed[i].effectId, id)))
  }

  /** A batch is a subsequence of the order. */
  lemma {:induction false} FirstDueOrdered(l: Ledger, order: seq<string>, at: int, limit: int, p: nat, q: nat)
    requires p < q < |FirstDue(l, order, at, limit)|
    ensures Precedes(order, FirstDue(l, order, at, limit)[p], FirstDue(l, order, at, limit)[q])
  {
    var ids := FirstDue(l, order, at, limit);
    if order[0] in l.entries && Due(l.entries[order[0]], at) {
      var rest := FirstDue(l, order[1..], at, limit - 1);
      assert ids == [order[0]] + rest;
      if p == 0 {
        assert rest[q - 1] in order[1..];
        var j :| 0 <= j < |order[1..]| && order[1..][j] == rest[q - 1];
        assert order[0] == ids[p] && order[j + 1] == ids[q];
      } else {
        FirstDueOrdered(l, order[1..], at, limit - 1, p - 1, q - 1);
        LaterPrecedes(order, ids[p], ids[q]);
      }
    } else {
      FirstDueOrdered(l, order[1..], at, limit, p, q);
      LaterPrecedes(order, ids[p], ids[q]);
    }
  }

  lemma LaterPrecedes(order: seq<string>, id: string, id': string)
    requires order != [] && Precedes(order[1..], id, id')
    ensures Precedes(order, id, id')
  {
    var i, j :| 0 <= i < j < |order[1..]| && order[1..][i] == id && order[1..][j] == id';
    assert order[i + 1] == id && order[j + 1] == id';
  }

  /** A due effect that a batch passes over comes after the whole batch, and the batch is full. */
  lemma {:induction false} PassedOver(l: Ledger, order: seq<string>, at: int, limit: int, i: nat)
    requires i < |order| && order[i] in l.entries && Due(l.entries[order[i]], at)
    requires order[i] !in FirstDue(l, order, at, limit)
    ensures |FirstDue(l, order, at, limit)| >= limit
    ensures forall p :: 0 <= p < |FirstDue(l, order, at, limit)| ==>
              Precedes(order, FirstDue(l, order, at, limit)[p], order[i])
  {
    var ids := FirstDue(l, order, at, limit);
    if limit > 0 {
      var due := order[0] in l.entries && Due(l.entries[order[0]], at);
      var rest := FirstDue(l, order[1..], at, if due then limit - 1 else limit);
      assert due ==> ids == [order[0]] + rest && ids[0] == order[0];
      assert i > 0 && order[1..][i - 1] == order[i];
      PassedOver(l, order[1..], at, if due then limit - 1 else limit, i - 1);
      forall p | 0 <= p < |ids|
        ensures Precedes(order, ids[p], order[i])
      {
        if due && p == 0 {
          assert order[0] == ids[p];
        } else {
          var rp := if due then p - 1 else p;
          assert Precedes(order[1..], rest[rp], order[1..][i - 1]);
          LaterPrecedes(order, ids[p], order[i]);
        }
      }
    }
  }

  /** Being due in a dialect is being free there. */
  lemma DueIsFree(e: Entry, now: int, strict: bool)
    ensures Due(e, if strict then now - 1 else now) <==> Free(e, now, strict)
  {
  }

  lemma ClaimedIsLeased(l: Ledger, worker: string, now: int, leaseFor: int, limit: int, strict: bool, i: nat)
    requires LedgerOk(l) && i < |FirstDue(l, l.order, if strict then now - 1 else now, limit)|
    ensures var ids := FirstDue(l, l.order, if strict then now - 1 else now, limit);
            var rec := ClaimedRecords(l, ids, worker, now, leaseFor)[i];
            && ids[i] in l.entries && rec.effectId == ids[i]
            && Leased(l.entries[ids[i]], ClaimAll(l, ids, worker, now, leaseFor).entries[ids[i]], rec, worker, now, leaseFor, strict)
  {
    hide LedgerOk, FirstDue, Due, Free, ClaimEntry, Leased;
    var ids := FirstDue(l, l.order, if strict then now - 1 else now, limit);
    assert ids[i] in ids;
    EntryFacts(l, ids[i]);
    DueIsFree(l.entries[ids[i]], now, strict);
    ClaimLeases(l.entries[ids[i]], worker, now, leaseFor, strict);
  }

  lemma PassedIsKept(l: Ledger, worker: string, now: int, leaseFor: int, limit: int, strict: bool, id: string)
    requires LedgerOk(l) && id in l.entries
    requires id !in FirstDue(l, l.order, if strict then now - 1 else now, limit)
    ensures var ids := FirstDue(l, l.order, if strict then now - 1 else now, limit);
            && ClaimAll(l, ids, worker, now, leaseFor).entries[id] == l.entries[id]
            && (Free(l.entries[id], now, strict) ==> |ids| >= limit && forall p :: 0 <= p < |ids| ==> Precedes(l.order, ids[p], id))
  {
    hide EntryOk, IdentityOk, FirstDue, Due, Free, ClaimEntry, Precedes;
    DueIsFree(l.entries[id], now, strict);
    if Free(l.entries[id], now, strict) {
      var i :| 0 <= i < |l.order| && l.order[i] == id;
      PassedOver(l, l.order, if strict then now - 1 else now, limit, i);
    }
  }

  /** The batch the stores claim keeps the promise. */
  lemma ClaimHandsOut(l: Ledger, worker: string, now: int, leaseFor: int, limit: int, strict: bool)
    requires LedgerOk(l)
    ensures var ids := FirstDue(l, l.order, if strict then now - 1 else now, limit);
            HandsOut(l, ClaimAll(l, ids, worker, now, leaseFor), ClaimedRecords(l, ids, worker, now, leaseFor),
                     worker, now, leaseFor, limit, strict)
  {
    hide LedgerOk, FirstDue, Due, Free, ClaimEntry, Precedes, Leased;
    var at := if strict then now - 1 else now;
    var ids := FirstDue(l, l.order, at, limit);
    var claimed := ClaimedRecords(l, ids, worker, now, leaseFor);
    BatchWithin(l, l.order, at, limit);
    forall i | 0 <= i < |claimed|
      ensures claimed[i].effectId == ids[i] && ids[i] in l.entries
      ensures Leased(l.entries[ids[i]], ClaimAll(l, ids, worker, now, leaseFor).entries[ids[i]], claimed[i], worker, now, leaseFor, strict)
    {
      ClaimedIsLeased(l, worker, now, leaseFor, limit, strict, i);
    }
    forall i, j | 0 <= i < j < |claimed|
      ensures Precedes(l.order, claimed[i].effectId, claimed[j].effectId)
    {
      FirstDueOrdered(l, l.order, at, limit, i, j);
    }
    forall id | id in l.entries && id !in ids
      ensures ClaimAll(l, ids, worker, now, leaseFor).entries[id] == l.entries[id]
      ensures Free(l.entries[id], now, strict) ==>
                |claimed| >= limit && forall i :: 0 <= i < |claimed| ==> Precedes(l.order, claimed[i].effectId, id)
    {
      PassedIsKept(l, worker, now, leaseFor, limit, strict, id);
    }
    forall id | id in ids
      ensures exists i :: 0 <= i < |claimed| && claimed[i].effectId == id
    {
      var i :| 0 <= i < |ids| && ids[i] == id;
      assert claimed[i].effectId == id;
    }
  }

  lemma BatchWithin(l: Ledger, order: seq<string>, at: int, limit: int)
    ensures |FirstDue(l, order, at, limit)| <= if limit > 0 then limit else 0
  {
  }

  lemma ClaimLeases(e: Entry, worker: string, now: int, leaseFor: int, strict: bool)
    requires Free(e, now, strict)
    ensures ClaimEntry(e, worker, now, leaseFor).record.effectId == e.record.effectId
    ensures Leased(e, ClaimEntry(e, worker, now, leaseFor), ClaimEntry(e, worker, now, leaseFor).record, worker, now, leaseFor, strict)
  {
    hide Free;
  }

  /**
   * A lease excludes: as long as nobody writes a claimed effect, no batch at an instant before the lease's end
   * holds it, and from its end on (strictly after it, where the dialect says so) it is free again.
   */
  lemma LeaseExcludes(l: Ledger, l': Ledger, claimed: seq<Record>, worker: string, now: int, leaseFor: int, limit: int, strict: bool,
                      later: Ledger, later': Ledger, next: seq<Record>, worker': string, at: int, leaseFor': int, limit': int, i: nat)
    requires HandsOut(l, l', claimed, worker, now, leaseFor, limit, strict) && i < |claimed|
    requires HandsOut(later, later', next, worker', at, leaseFor', limit', strict)
    requires claimed[i].effectId in later.entries
    requires later.entries[claimed[i].effectId] == l'.entries[claimed[i].effectId]
    ensures (exists j :: 0 <= j < |next| && next[j].effectId == claimed[i].effectId) ==>
              now + leaseFor < at || (!strict && now + leaseFor == at)
    ensures now + leaseFor < at || (!strict && now + leaseFor == at) ==>
              || |next| >= limit'
              || exists j :: 0 <= j < |next| && next[j].effectId == claimed[i].effectId
  {
    hide Precedes;
  }

  // ---------------------------------------------------------------- the fenced write

  /** The statuses from which a target status may be written. */
  function Origins(target: Status): set<Status> {
    match target
    case Prepared => {Reconciling}
    case Cancelled => {Prepared, Retryable}
    case Dispatching => {Prepared, Retryable, OutcomeUnknown}
    case Retryable => {Dispatching}
    case OutcomeUnknown => {Dispatching}
    case Reconciling => {OutcomeUnknown}
    case Succeeded => {Dispatching, Reconciling, ManualReview}
    case FailedFinal => {Dispatching, Retryable, Reconciling, ManualReview}
    case ManualReview => {OutcomeUnknown, Reconciling}
    case Compensated => {ManualReview}
  }

  lemma OriginsAllow(current: Status, target: Status)
    ensures Allowed(current, target) <==> current in Origins(target)
  {
  }

  /** Version and graph decide; an accepted write makes the next version, drops the lease and logs the edge with its facts. */
  ghost predicate Writes(l: Ledger, l': Ledger, id: string, expected: nat, target: Status, data: Metadata, now: int, r: Result<Record, StoreError>) {
    if id !in l.entries then r == Err(UnknownEffect(id)) && l' == l
    else
      var e := l.entries[id];
      if e.record.version != expected then r == Err(VersionConflict(id)) && l' == l
      else if e.record.status !in Origins(target) then r == Err(InvalidTransition(e.record.status, target)) && l' == l
      else
        var record := e.record.(status := target, version := expected + 1, updatedAt := now);
        && r == Ok(record)
        && l' == l.(entries := l.entries[id := Entry(record, None, e.attempts,
                      e.events + [Event(|e.events| + 1, expected + 1, now, Moved(e.record.status, target, data))])])
  }

  lemma TransitionWrites(l: Ledger, id: string, expected: nat, target: Status, data: Metadata, now: int)
    requires LedgerOk(l)
    ensures var (l', r) := Transition(l, id, expected, target, data, now);
            Writes(l, l', id, expected, target, data, now, r)
  {
    hide LogOk, AttemptsOk, IdentityOk, OrderOk, Hashed, Origins;
    if id in l.entries {
      EntryFacts(l, id);
      OriginsAllow(l.entries[id].record.status, target);
    }
  }

  lemma WrittenStatus(l: Ledger, l': Ledger, id: string, expected: nat, target: Status, data: Metadata, now: int, r: Result<Record, StoreError>)
    requires Writes(l, l', id, expected, target, data, now, r) && r.Ok?
    ensures r.value.status == target
  {
  }

  /** An attempt row is numbered, dated and versioned; status, version and lease stay. */
  ghost predicate Attempts(l: Ledger, l': Ledger, id: string, expected: nat, worker: string, now: int, r: Result<string, StoreError>) {
    if id !in l.entries then r == Err(UnknownEffect(id)) && l' == l
    else
      var e, n := l.entries[id], |l.entries[id].attempts| + 1;
      if e.record.version != expected then r == Err(VersionConflict(id)) && l' == l
      else
        && r == Ok(id + "-attempt-" + Decimal.Digits(n))
        && l' == l.(entries := l.entries[id := Entry(e.record, e.lease,
                      e.attempts + [Attempt(r.value, id, n, worker, expected, now)],
                      e.events + [Event(|e.events| + 1, expected, now, AttemptStarted(r.value, n, worker))])])
  }

  lemma StartAttempts(l: Ledger, id: string, expected: nat, worker: string, now: int)
    requires LedgerOk(l)
    ensures var (l', r) := StartAttempt(l, id, expected, worker, now);
            Attempts(l, l', id, expected, worker, now, r)
  {
    hide LogOk, AttemptsOk, IdentityOk, OrderOk, Hashed;
    if id in l.entries {
      EntryFacts(l, id);
    }
  }

  // ---------------------------------------------------------------- reservations

  /** A reservation is made once, as the caller asked for it; a replay shows the effect there is. */
  ghost predicate Reserves(l: Ledger, l': Ledger, id: string, tenantId: string, request: Request, contract: Contract, now: int,
                           r: Result<Reservation, StoreError>) {
    && (r.Ok? && r.value.created ==>
          var rec := r.value.effect;
          && !r.value.replayed && rec.effectId == id && rec.tenantId == tenantId && rec.request == request && rec.contract == contract
          && rec.status == Prepared && rec.version == 0 && rec.createdAt == now && rec.updatedAt == now
          && l'.entries == l.entries[id := Entry(rec, None, [], [Event(1, 0, now, Reserved(Prepared))])])
    && (r.Ok? && !r.value.created ==>
          var rec := r.value.effect;
          && r.value.replayed && l' == l
          && rec.effectId in l.entries && l.entries[rec.effectId].record == rec
          && rec.tenantId == tenantId && rec.request.operationKey == request.operationKey)
    && (r.Err? ==> l' == l)
    && (r.Ok? ==> (r.value.created <==>
          forall x :: x in l.entries ==> l.entries[x].record.tenantId != tenantId || l.entries[x].record.request.operationKey != request.operationKey))
  }

  lemma ReserveReserves(l: Ledger, id: string, tenantId: string, request: Request, contract: Contract, now: int)
    requires LedgerOk(l)
    ensures var (l', r) := Reserve(l, id, tenantId, request, contract, now);
            Reserves(l, l', id, tenantId, request, contract, now, r)
  {
    hide LogOk, AttemptsOk, OrderOk, Hashed, RequestHash, OperationKeyOf;
    var operation := (tenantId, request.operationKey);
    if operation in l.identity {
      EntryFacts(l, l.identity[operation]);
      var rec := l.entries[l.identity[operation]].record;
      assert OperationOf(rec) == operation;
      assert rec.tenantId == tenantId && rec.request.operationKey == request.operationKey;
    } else {
      forall x | x in l.entries
        ensures l.entries[x].record.tenantId != tenantId || l.entries[x].record.request.operationKey != request.operationKey
      {
        assert OperationOf(l.entries[x].record) in l.identity;
      }
      var first := Event(1, 0, now, Reserved(Prepared));
      assert [] + [first] == [first];
    }
  }

  /** Where a new effect is listed is no part of the promise. */
  lemma ReservesAnywhere(l: Ledger, l': Ledger, order: seq<string>, id: string, tenantId: string, request: Request, contract: Contract,
                         now: int, r: Result<Reservation, StoreError>)
    requires Reserves(l, l', id, tenantId, request, contract, now, r) && r.Ok? && r.value.created
    ensures Reserves(l, l'.(order := order), id, tenantId, request, contract, now, r)
  {
  }

  // ---------------------------------------------------------------- receipts

  /** A receipt is shown to the effect's own tenant, once it has succeeded, with the facts of the success. */
  ghost predicate Shows(l: Ledger, tenantId: string, id: string, r: Option<Receipt>) {
    && (r.Some? <==> id in l.entries && l.entries[id].record.tenantId == tenantId && l.entries[id].record.status == Succeeded)
    && (r.Some? ==>
          var e := l.entries[id];
          exists i :: 0 <= i < |e.events| && e.events[i].body.Moved? && e.events[i].body.to == Succeeded
                      && r.value == Receipt(id, e.record.contract.name, e.record.contract.version, e.record.downstreamKey,
                                            e.events[i].body.metadata, e.events[i].at))
  }

  /** SUCCEEDED is terminal, so a log that is elsewhere has never been there. */
  lemma {:induction false} SuccessOnlyIfSucceeded(events: seq<Event>)
    requires Replay(events).Some? && Replay(events).value.status != Succeeded
    ensures forall i :: 0 <= i < |events| ==> !IsSuccess(events[i])
  {
    if |events| == 1 {
    } else {
      var front := events[..|events| - 1];
      SuccessOnlyIfSucceeded(front);
      assert events == front + [events[|events| - 1]];
    }
  }

  /** And a log that is there has a move there. */
  lemma {:induction false} SucceededHasMove(events: seq<Event>)
    requires Replay(events).Some? && Replay(events).value.status == Succeeded
    ensures exists i :: 0 <= i < |events| && IsSuccess(events[i])
  {
    var last := |events| - 1;
    if |events| > 1 && !IsSuccess(events[last]) {
      SucceededHasMove(events[..last]);
      var i :| 0 <= i < last && IsSuccess(events[..last][i]);
      assert IsSuccess(events[i]);
    } else {
      assert IsSuccess(events[last]);
    }
  }

  lemma LastSuccessStep(events: seq<Event>, i: nat)
    requires i < |events|
    ensures LastSuccess(events[..i + 1]) == if IsSuccess(events[i]) then Some(events[i]) else LastSuccess(events[..i])
    ensures LastSuccess(events[..0]) == None
  {
    assert events[..i + 1][..i] == events[..i];
  }

  lemma ReceiptShows(l: Ledger, tenantId: string, id: string)
    requires LedgerOk(l)
    ensures Shows(l, tenantId, id, ReceiptFor(l, tenantId, id))
  {
    hide AttemptsOk, IdentityOk, OrderOk, Hashed, Replay, LastSuccess;
    if id in l.entries && l.entries[id].record.tenantId == tenantId {
      EntryFacts(l, id);
      var e := l.entries[id];
      if e.record.status == Succeeded {
        SucceededHasMove(e.events);
        var event := LastSuccess(e.events).value;
        var i :| 0 <= i < |e.events| && e.events[i] == event;
      } else {
        SuccessOnlyIfSucceeded(e.events);
      }
    }
  }

  // ---------------------------------------------------------------- tenants

  /** Two ledgers hold the same effects for a tenant. */
  ghost predicate SameFor(l: Ledger, l': Ledger, tenantId: string) {
    && l.secret == l'.secret
    && (forall id :: id in l.entries && l.entries[id].record.tenantId == tenantId ==> id in l'.entries && l'.entries[id] == l.entries[id])
    && (forall id :: id in l'.entries && l'.entries[id].record.tenantId == tenantId ==> id in l.entries && l.entries[id] == l'.entries[id])
  }

  /** What a tenant is told depends on its own effects alone. */
  lemma TenantsDoNotInterfere(l: Ledger, l': Ledger, tenantId: string, id: string, newId: string, request: Request, contract: Contract, now: int)
    requires LedgerOk(l) && LedgerOk(l') && SameFor(l, l', tenantId)
    ensures Get(l, tenantId, id) == Get(l', tenantId, id)
    ensures ReceiptFor(l, tenantId, id) == ReceiptFor(l', tenantId, id)
    ensures Reserve(l, newId, tenantId, request, contract, now).1 == Reserve(l', newId, tenantId, request, contract, now).1
    ensures newId !in l.entries && newId !in l'.entries ==>
              SameFor(Reserve(l, newId, tenantId, request, contract, now).0, Reserve(l', newId, tenantId, request, contract, now).0, tenantId)
  {
    hide LedgerOk, RequestHash, OperationKeyOf, EntryReceipt, NewEntry, SameFor;
    SameReads(l, l', tenantId, id);
    SameReservation(l, l', tenantId, newId, request, contract, now);
  }

  lemma SameReads(l: Ledger, l': Ledger, tenantId: string, id: string)
    requires SameFor(l, l', tenantId)
    ensures Get(l, tenantId, id) == Get(l', tenantId, id)
    ensures ReceiptFor(l, tenantId, id) == ReceiptFor(l', tenantId, id)
  {
    hide EntryReceipt;
  }

  lemma SameReservation(l: Ledger, l': Ledger, tenantId: string, newId: string, request: Request, contract: Contract, now: int)
    requires LedgerOk(l) && LedgerOk(l') && SameFor(l, l', tenantId)
    ensures Reserve(l, newId, tenantId, request, contract, now).1 == Reserve(l', newId, tenantId, request, contract, now).1
    ensures newId !in l.entries && newId !in l'.entries ==>
              SameFor(Reserve(l, newId, tenantId, request, contract, now).0, Reserve(l', newId, tenantId, request, contract, now).0, tenantId)
  {
    hide LedgerOk, RequestHash, NewRecord, NewEntry, SameFor;
    SameOperations(l, l', tenantId, (tenantId, request.operationKey));
    SameOperations(l', l, tenantId, (tenantId, request.operationKey));
    var (k, r) := Reserve(l, newId, tenantId, request, contract, now);
    if r.Ok? && r.value.created && newId !in l.entries && newId !in l'.entries {
      InsertKeepsSame(l, l', k, Reserve(l', newId, tenantId, request, contract, now).0, tenantId, newId, NewEntry(r.value.effect));
    }
  }

  lemma InsertKeepsSame(l: Ledger, l': Ledger, k: Ledger, k': Ledger, tenantId: string, id: string, e: Entry)
    requires SameFor(l, l', tenantId) && k.secret == l.secret && k'.secret == l'.secret && id !in l.entries && id !in l'.entries
    requires k.entries == l.entries[id := e] && k'.entries == l'.entries[id := e]
    ensures SameFor(k, k', tenantId)
  {
  }

  lemma SameOperations(l: Ledger, l': Ledger, tenantId: string, operation: (string, string))
    requires LedgerOk(l) && LedgerOk(l') && SameFor(l, l', tenantId) && operation.0 == tenantId
    ensures l.secret == l'.secret && SameFor(l', l, tenantId)
    ensures operation in l.identity ==>
              && l.identity[operation] in l.entries && operation in l'.identity && l'.identity[operation] == l.identity[operation]
              && l'.identity[operation] in l'.entries && l'.entries[l.identity[operation]] == l.entries[l.identity[operation]]
  {
    hide EntryOk, OrderOk;
    if operation in l.identity {
      var id := l.identity[operation];
      assert OperationOf(l.entries[id].record) == operation;
      assert OperationOf(l'.entries[id].record) in l'.identity;
    }
  }
}
