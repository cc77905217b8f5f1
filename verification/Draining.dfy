/**
 * Whole batches and the worker loop: dispatch_once is a run of the protocol, and repeating it with an
 * adapter that always gives proof drains every claimable effect within a fixed budget of target calls.
 */
module Draining {
  import opened Prelude
  import opened Models
  import opened StateMachine
  import opened Ledger
  import opened LedgerProofs
  import opened StoreContracts
  import opened Target
  import opened Protocol
  import opened ProtocolInvariant
  import opened ProtocolSteps
  import opened MemoryStore
  import opened Worker

  // ---------------------------------------------------------------- the budget

  /** How many more times an effect may be dispatched when every answer is proven. */
  function Tries(e: Entry): nat {
    if !Claimable(e.record.status) then 0
    else if e.record.contract.retryLimit - |e.attempts| > 1 then e.record.contract.retryLimit - |e.attempts|
    else 1
  }

  function Budget(l: Ledger, order: seq<string>): nat {
    if order == [] then 0
    else (if order[0] in l.entries then Tries(l.entries[order[0]]) else 0) + Budget(l, order[1..])
  }

  predicate Proof(answer: Answer) {
    answer.Confirmed? || answer.Rejected?
  }

  lemma {:induction false} BudgetSame(l: Ledger, l': Ledger, order: seq<string>)
    requires l.entries.Keys == l'.entries.Keys
    requires forall id :: id in l.entries && id in order ==> Tries(l'.entries[id]) == Tries(l.entries[id])
    ensures Budget(l, order) == Budget(l', order)
  {
    hide Tries;
    if order == [] {
    } else {
      assert order[0] in l.entries <==> order[0] in l'.entries;
      assert forall x :: x in order[1..] ==> x in order;
      BudgetSame(l, l', order[1..]);
    }
  }

  lemma {:induction false} BudgetDrops(l: Ledger, l': Ledger, order: seq<string>, id: string)
    requires l.entries.Keys == l'.entries.Keys && id in l.entries && id in order
    requires forall i, j :: 0 <= i < j < |order| ==> order[i] != order[j]
    requires forall x :: x in l.entries && x != id ==> l'.entries[x] == l.entries[x]
    requires Tries(l'.entries[id]) < Tries(l.entries[id])
    ensures Budget(l', order) < Budget(l, order)
  {
    hide Tries;
    if order[0] == id {
      assert id !in order[1..];
      BudgetSame(l, l', order[1..]);
    } else {
      assert order[0] in l.entries <==> order[0] in l'.entries;
      BudgetDrops(l, l', order[1..], id);
    }
  }

  /** One dispatch with a proven answer spends at least one try. */
  lemma ProvenDispatchSpends(m: System, m': System, id: string, answer: Answer)
    requires Inv(m) && id in m.ledger.entries && Claimable(Current(m, id).status)
    requires Dispatched(m, m', id, answer) && Proof(answer)
    ensures Budget(m'.ledger, m'.ledger.order) < Budget(m.ledger, m.ledger.order)
  {
    hide EntryOk, IdentityOk, ActorsOk, UniqueOwners, Budget, SamePinned;
    assert m'.ledger.entries[id].record.contract == m.ledger.entries[id].record.contract by {
      PinnedContract(m.ledger.entries[id].record, m'.ledger.entries[id].record);
    }
    BudgetDrops(m.ledger, m'.ledger, m.ledger.order, id);
  }

  lemma PinnedContract(r: Record, r': Record)
    requires SamePinned(r, r')
    ensures r.contract == r'.contract
  {
  }

  lemma ClaimTries(e: Entry, worker: string, now: int, leaseFor: int)
    ensures Tries(ClaimEntry(e, worker, now, leaseFor)) == Tries(e)
  {
  }

  // ---------------------------------------------------------------- one batch

  /** What the environment holds for a batch: deliveries and clock readings, from given positions on. */
  datatype World = World(deliveries: nat -> Delivery, first: nat, readings: nat -> int, from: nat)

  datatype Round = Round(a: nat, worker: string, now: int, ids: seq<string>, leaseFor: int)

  /** The steps of dispatch number i. */
  function DispatchNumber(a: nat, i: nat, w: World): seq<Label> {
    DispatchSteps(a, w.deliveries(w.first + i), w.readings, w.from + 4 * i)
  }

  function DispatchAll(a: nat, n: nat, w: World): seq<Label> {
    if n == 0 then [] else DispatchAll(a, n - 1, w) + DispatchNumber(a, n - 1, w)
  }

  function ClaimLabel(b: Round): Label {
    Claim(b.a, b.worker, b.now, b.ids, b.leaseFor)
  }

  /** The labels of one dispatch_once: a claim, then four timed steps per claimed effect. */
  function BatchRun(b: Round, n: nat, w: World): seq<Label> {
    [ClaimLabel(b)] + DispatchAll(b.a, n, w)
  }

  lemma PrependDistinct(id: string, rest: seq<string>)
    requires NoRepeats(rest) && id !in rest
    ensures NoRepeats([id] + rest)
  {
  }

  lemma {:induction false} FirstDueDistinct(l: Ledger, order: seq<string>, now: int, limit: int)
    requires NoRepeats(order)
    ensures NoRepeats(FirstDue(l, order, now, limit))
  {
    if order == [] || limit <= 0 {
    } else {
      assert NoRepeats(order[1..]) && order[0] !in order[1..];
      if order[0] in l.entries && Due(l.entries[order[0]], now) {
        FirstDueDistinct(l, order[1..], now, limit - 1);
        PrependDistinct(order[0], FirstDue(l, order[1..], now, limit - 1));
      } else {
        FirstDueDistinct(l, order[1..], now, limit);
      }
    }
  }

  /** What a batch of proven answers may have changed, and what it may have cost. */
  ghost predicate Along(s: System, m: System) {
    && m.ledger.entries.Keys == s.ledger.entries.Keys && m.ledger.order == s.ledger.order
    && |m.calls| + Budget(m.ledger, m.ledger.order) <= |s.calls| + Budget(s.ledger, s.ledger.order)
    && forall id :: id in s.ledger.entries ==> EntryAlong(s.ledger.entries[id], m.ledger.entries[id])
  }

  /**
   * A waiting effect is tried until it succeeds or its retry limit is reached, once in any case; a final failure
   * means the limit is reached. Nothing else is touched.
   */
  predicate EntryAlong(e: Entry, e': Entry) {
    if e.record.status in {Prepared, Retryable} then
      var limit, before, after := e.record.contract.retryLimit, |e.attempts|, |e'.attempts|;
      && e'.record.contract == e.record.contract
      && before <= after <= before + (if limit - before > 1 then limit - before else 1)
      && e'.record.status in {Prepared, Retryable, Succeeded, FailedFinal}
      && (e'.record.status in {Prepared, Retryable} ==> after == before || after < limit)
      && (e'.record.status in {Succeeded, FailedFinal} ==> after > before)
      && (e'.record.status == FailedFinal ==> after >= limit)
    else e' == e
  }

  /**
   * What the loop leaves of an effect: a waiting one was tried at least once and at most up to its retry limit,
   * once if the limit was reached before, and failed only at the limit; any other is as it was.
   */
  predicate Exhausted(e: Entry, e': Entry) {
    if e.record.status in {Prepared, Retryable} then
      var limit, before, after := e.record.contract.retryLimit, |e.attempts|, |e'.attempts|;
      && e'.record.status in {Succeeded, FailedFinal}
      && before < after <= before + (if limit - before > 1 then limit - before else 1)
      && (e'.record.status == FailedFinal ==> after >= limit)
    else e' == e
  }

  lemma AlongTransitive(a: System, b: System, c: System)
    requires Along(a, b) && Along(b, c)
    ensures Along(a, c)
  {
    hide Budget;
  }

  lemma ClaimAlong(s: System, m: System, ids: seq<string>, worker: string, now: int, leaseFor: int)
    requires forall id :: id in ids ==> id in s.ledger.entries && Due(s.ledger.entries[id], now)
    requires m.ledger == ClaimAll(s.ledger, ids, worker, now, leaseFor) && m.calls == s.calls
    ensures Along(s, m)
  {
    hide ClaimEntry, Tries;
    forall id | id in s.ledger.entries
      ensures Tries(m.ledger.entries[id]) == Tries(s.ledger.entries[id])
      ensures EntryAlong(s.ledger.entries[id], m.ledger.entries[id])
    {
      ClaimTries(s.ledger.entries[id], worker, now, leaseFor);
      ClaimKeepsStatus(s.ledger.entries[id], worker, now, leaseFor);
    }
    BudgetSame(s.ledger, m.ledger, s.ledger.order);
  }

  lemma ClaimKeepsStatus(e: Entry, worker: string, now: int, leaseFor: int)
    ensures ClaimEntry(e, worker, now, leaseFor).record.status == e.record.status
    ensures ClaimEntry(e, worker, now, leaseFor).record.contract == e.record.contract
    ensures ClaimEntry(e, worker, now, leaseFor).attempts == e.attempts
  {
  }

  lemma DispatchAlong(m: System, m': System, id: string, answer: Answer)
    requires Inv(m) && id in m.ledger.entries && Claimable(Current(m, id).status)
    requires Dispatched(m, m', id, answer) && Proof(answer)
    ensures Along(m, m')
  {
    hide Inv, Budget;
    ProvenDispatchSpends(m, m', id, answer);
  }

  /** No lease that is still running. */
  ghost predicate NoLiveLease(l: Ledger, now: int) {
    forall id :: id in l.entries && l.entries[id].lease.Some? ==> l.entries[id].lease.value.expiresAt <= now
  }

  /** The state of a batch after i of its effects have been dispatched. */
  ghost predicate MidBatch(s: System, m: System, b: Round, claimed: seq<Record>, i: nat, proven: bool) {
    && Inv(m) && i <= |b.ids| && |claimed| == |b.ids|
    && Pc(m, b.a) == (if i < |b.ids| then Ready(b.worker, claimed[i..]) else Idle)
    && NoRepeats(b.ids)
    && (forall j :: i <= j < |b.ids| ==> claimed[j].effectId == b.ids[j] && Fresh(m, claimed[j]))
    && (forall j :: 0 <= j < |b.ids| ==> claimed[j].effectId == b.ids[j])
    && |m.calls| == |s.calls| + i
    && (proven ==> Along(s, m))
    && (NoLiveLease(s.ledger, b.now) ==>
          forall id :: id in m.ledger.entries && id !in b.ids[i..] && m.ledger.entries[id].lease.Some? ==>
            m.ledger.entries[id].lease.value.expiresAt <= b.now)
  }

  /** The batch a worker gets when it asks for due work. */
  function BatchFor(s: System, a: nat, worker: string, now: int, leaseFor: int, limit: int): Round {
    Round(a, worker, now, FirstDue(s.ledger, s.ledger.order, now, limit), leaseFor)
  }

  lemma BatchBegins(s: System, a: nat, worker: string, now: int, leaseFor: int, limit: int, proven: bool)
    requires Inv(s) && Pc(s, a).Idle?
    ensures var b := BatchFor(s, a, worker, now, leaseFor, limit);
            var m := Next(s, ClaimLabel(b));
            && m.ledger == ClaimAll(s.ledger, b.ids, worker, now, leaseFor) && m.target == s.target && m.clock == s.clock
            && MidBatch(s, m, b, ClaimedRecords(s.ledger, b.ids, worker, now, leaseFor), 0, proven)
  {
    hide Inv, ClaimEntry, Budget, Along, ClaimAll, ClaimedRecords, Due;
    OrderDistinct(s);
    var b := BatchFor(s, a, worker, now, leaseFor, limit);
    var m := Next(s, ClaimLabel(b));
    FirstDueDistinct(s.ledger, s.ledger.order, now, limit);
    assert ClaimEnabled(s, a, now, b.ids);
    NextKeeps(s, ClaimLabel(b));
    if b.ids == [] {
      ClaimNone(s.ledger, worker, now, leaseFor);
    }
    ClaimAlong(s, m, b.ids, worker, now, leaseFor);
    assert b.ids[0..] == b.ids;
    var claimed := ClaimedRecords(s.ledger, b.ids, worker, now, leaseFor);
    assert claimed[0..] == claimed;
    ClaimedAreFresh(s, m, b.ids, worker, now, leaseFor);
    UnclaimedLeases(s.ledger, b.ids, worker, now, leaseFor);
  }

  lemma OrderDistinct(s: System)
    requires Inv(s)
    ensures NoRepeats(s.ledger.order)
  {
  }

  lemma UnclaimedLeases(l: Ledger, ids: seq<string>, worker: string, now: int, leaseFor: int)
    ensures forall id :: id in ClaimAll(l, ids, worker, now, leaseFor).entries && id !in ids ==>
              id in l.entries && ClaimAll(l, ids, worker, now, leaseFor).entries[id] == l.entries[id]
  {
    hide ClaimEntry;
  }

  lemma ClaimedAreFresh(s: System, m: System, ids: seq<string>, worker: string, now: int, leaseFor: int)
    requires Inv(s) && forall id :: id in ids ==> id in s.ledger.entries && Due(s.ledger.entries[id], now)
    requires m.ledger == ClaimAll(s.ledger, ids, worker, now, leaseFor)
    ensures var claimed := ClaimedRecords(s.ledger, ids, worker, now, leaseFor);
            forall j :: 0 <= j < |ids| ==> claimed[j].effectId == ids[j] && Fresh(m, claimed[j])
  {
    hide LedgerOk, ActorsOk, UniqueOwners;
    var claimed := ClaimedRecords(s.ledger, ids, worker, now, leaseFor);
    forall j | 0 <= j < |ids|
      ensures claimed[j].effectId == ids[j] && Fresh(m, claimed[j])
    {
      assert ids[j] in ids;
      EntryFacts(s.ledger, ids[j]);
    }
  }

  /** Dispatching one effect of the batch leaves the claims on the others untouched. */
  lemma BatchStep(s: System, m: System, m': System, b: Round, claimed: seq<Record>, i: nat, proven: bool, answer: Answer, run: seq<Label>)
    requires MidBatch(s, m, b, claimed, i, proven) && i < |b.ids|
    requires m' == After(m, run) && Dispatched(m, m', b.ids[i], answer)
    requires Pc(m', b.a) == Resume(Party.Worker(b.worker), claimed[i + 1..])
    requires proven ==> Proof(answer)
    ensures MidBatch(s, m', b, claimed, i + 1, proven)
  {
    hide Inv, Next, After, Budget, SamePinned, Along;
    RunKeeps(m, run);
    var id := b.ids[i];
    assert Fresh(m, claimed[i]);
    if proven {
      DispatchAlong(m, m', id, answer);
      AlongTransitive(s, m, m');
    }
    assert b.ids[i..] == [id] + b.ids[i + 1..];
    forall j | i + 1 <= j < |b.ids|
      ensures claimed[j].effectId == b.ids[j] && Fresh(m', claimed[j])
    {
      assert b.ids[j] != id;
    }
  }

  lemma BatchRunStep(s: System, b: Round, i: nat, w: World)
    ensures After(s, BatchRun(b, i + 1, w)) == After(After(s, BatchRun(b, i, w)), DispatchNumber(b.a, i, w))
    ensures After(s, BatchRun(b, 0, w)) == Next(s, ClaimLabel(b))
  {
    hide Next, DispatchNumber;
    var run := BatchRun(b, i, w);
    assert BatchRun(b, i + 1, w) == run + DispatchNumber(b.a, i, w);
    AfterConcat(s, run, DispatchNumber(b.a, i, w));
    var none: seq<Label> := [];
    AfterStep(s, none, ClaimLabel(b));
    assert BatchRun(b, 0, w) == none + [ClaimLabel(b)];
  }

  /** Every answer the adapter will give is proof of a commit or of a non-commit. */
  ghost predicate AlwaysProves(world: nat -> Delivery) {
    forall i :: world(i).Refuse? || world(i) == Land(Answered)
  }

  lemma ProvenDelivery(t: Target, rec: Record, delivery: Delivery, now: int)
    requires delivery.Refuse? || delivery == Land(Answered)
    ensures Proof(Deliver(t, rec, delivery, now).1)
  {
  }

  /** The claim a batch starts with. */
  method ClaimBatch(store: InMemoryStore, adapter: Adapter, clock: Clock, worker: string, now: int, leaseFor: int, limit: int,
                    ghost s: System, ghost a: nat)
    returns (claimed: seq<Record>)
    requires Embodies(store, adapter, clock, s) && Inv(s) && Pc(s, a).Idle?
    modifies store
    ensures var b := BatchFor(s, a, worker, now, leaseFor, limit);
            var m := Next(s, ClaimLabel(b));
            && Embodies(store, adapter, clock, m) && |claimed| == |b.ids|
            && MidBatch(s, m, b, claimed, 0, AlwaysProves(adapter.deliveries))
  {
    hide Inv, Next, MidBatch, AlwaysProves, LedgerOk, Minted, FirstDue, ClaimedRecords, ClaimAll, MemoryStore.Tables.Represents,
         Nondecreasing, Pc, HandsOut;
    StoreOrder(store);
    BatchBegins(s, a, worker, now, leaseFor, limit, AlwaysProves(adapter.deliveries));
    claimed := store.ClaimDue(worker, now, leaseFor, limit);
  }

  lemma StoreOrder(store: InMemoryStore)
    requires store.Valid()
    ensures store.order == store.Model().order
  {
    hide LedgerOk, Minted;
  }

  /** One more effect of a batch. */
  method DispatchNext(store: InMemoryStore, adapter: Adapter, clock: Clock, claimed: seq<Record>, i: nat, worker: string,
                      ghost b: Round, ghost s: System, ghost m: System)
    returns (result: Record)
    requires Embodies(store, adapter, clock, m) && i < |b.ids| && |claimed| == |b.ids| && worker == b.worker
    requires MidBatch(s, m, b, claimed, i, AlwaysProves(adapter.deliveries))
    modifies store, adapter, clock
    ensures adapter.dispatches == old(adapter.dispatches) + 1 && clock.taken == old(clock.taken) + 4
    ensures var m' := After(m, DispatchSteps(b.a, adapter.deliveries(old(adapter.dispatches)), clock.readings, old(clock.taken)));
            && Embodies(store, adapter, clock, m')
            && MidBatch(s, m', b, claimed, i + 1, AlwaysProves(adapter.deliveries))
  {
    hide Inv, Next, After, DispatchSteps, MidBatch, AlwaysProves, Embodies, Fresh, DispatchedFrom, Pc;
    ghost var proven := AlwaysProves(adapter.deliveries);
    ghost var delivery, k := adapter.deliveries(adapter.dispatches), clock.taken;
    ghost var n := adapter.dispatches;
    MidBatchFacts(s, m, b, claimed, i, proven);
    ghost var answer;
    result, answer := DispatchOne(store, adapter, clock, worker, claimed[i], m, b.a, claimed[i + 1..]);
    NextOfBatch(s, m, b, claimed, i, adapter.deliveries, n, clock.readings, k, result, answer);
  }

  lemma NextOfBatch(s: System, m: System, b: Round, claimed: seq<Record>, i: nat, deliveries: nat -> Delivery, n: nat,
                    readings: nat -> int, k: nat, result: Record, answer: Answer)
    requires i < |b.ids| && |claimed| == |b.ids| && MidBatch(s, m, b, claimed, i, AlwaysProves(deliveries))
    requires DispatchedFrom(m, After(m, DispatchSteps(b.a, deliveries(n), readings, k)), b.a, b.worker, claimed[i], claimed[i + 1..],
                            deliveries(n), readings, k, result, answer)
    ensures MidBatch(s, After(m, DispatchSteps(b.a, deliveries(n), readings, k)), b, claimed, i + 1, AlwaysProves(deliveries))
  {
    hide Inv, Next, After, DispatchSteps, Fresh, Along, Deliver, MoveEntry, Dispatched;
    var run := DispatchSteps(b.a, deliveries(n), readings, k);
    if AlwaysProves(deliveries) {
      ProvenDelivery(m.target, DispatchingRecord(m, claimed[i].effectId, b.worker, readings(k)), deliveries(n), readings(k + 2));
    }
    BatchStep(s, m, After(m, run), b, claimed, i, AlwaysProves(deliveries), answer, run);
  }

  /** Claims due work and dispatches each effect of the batch at most once: exactly a run of the protocol. */
  method DispatchOnce(store: InMemoryStore, adapter: Adapter, clock: Clock, worker: string, now: int, leaseFor: int, limit: int,
                      ghost s: System, ghost a: nat)
    returns (results: seq<Record>)
    requires Embodies(store, adapter, clock, s) && Inv(s) && Pc(s, a).Idle?
    modifies store, adapter, clock
    ensures var b := BatchFor(s, a, worker, now, leaseFor, limit);
            var w := World(adapter.deliveries, old(adapter.dispatches), clock.readings, old(clock.taken));
            var s' := After(s, BatchRun(b, |b.ids|, w));
            && Embodies(store, adapter, clock, s') && Inv(s') && Pc(s', a).Idle?
            && |results| == |b.ids| && |s'.calls| == |s.calls| + |b.ids|
            && (AlwaysProves(adapter.deliveries) ==> Along(s, s'))
            && (NoLiveLease(s.ledger, now) ==> NoLiveLease(s'.ledger, now))
    ensures adapter.dispatches == old(adapter.dispatches) + |results| && clock.taken == old(clock.taken) + 4 * |results|
  {
    hide Inv, Next, After, BatchRun, DispatchSteps, DispatchNumber, MidBatch, Along, NoLiveLease, AlwaysProves, Embodies, FirstDue, Pc, ClaimLabel;
    ghost var w := World(adapter.deliveries, adapter.dispatches, clock.readings, clock.taken);
    ghost var b := BatchFor(s, a, worker, now, leaseFor, limit);
    ghost var m := Next(s, ClaimLabel(b));
    BatchRunStep(s, b, 0, w);
    var claimed := ClaimBatch(store, adapter, clock, worker, now, leaseFor, limit, s, a);
    results := [];
    var i := 0;
    while i < |claimed|
      invariant 0 <= i <= |claimed| && |results| == i && |claimed| == |b.ids|
      invariant m == After(s, BatchRun(b, i, w))
      invariant MidBatch(s, m, b, claimed, i, AlwaysProves(adapter.deliveries))
      invariant Embodies(store, adapter, clock, m)
      invariant adapter.dispatches == w.first + i && clock.taken == w.from + 4 * i
    {
      BatchRunStep(s, b, i, w);
      DispatchNumberIs(b.a, i, w);
      ghost var m' := After(m, DispatchNumber(b.a, i, w));
      var result := DispatchNext(store, adapter, clock, claimed, i, worker, b, s, m);
      m := m';
      results := results + [result];
      i := i + 1;
    }
    BatchEnds(s, m, b, claimed, AlwaysProves(adapter.deliveries));
  }

  lemma DispatchNumberIs(a: nat, i: nat, w: World)
    ensures DispatchNumber(a, i, w) == DispatchSteps(a, w.deliveries(w.first + i), w.readings, w.from + 4 * i)
  {
    hide DispatchSteps;
  }

  lemma MidBatchFacts(s: System, m: System, b: Round, claimed: seq<Record>, i: nat, proven: bool)
    requires MidBatch(s, m, b, claimed, i, proven) && i < |b.ids|
    ensures Inv(m) && |claimed| == |b.ids| && Fresh(m, claimed[i]) && claimed[i].effectId == b.ids[i]
    ensures Pc(m, b.a) == Ready(b.worker, [claimed[i]] + claimed[i + 1..])
    ensures claimed[i].effectId in m.ledger.entries
  {
    hide Inv, Along, NoLiveLease;
    assert claimed[i..] == [claimed[i]] + claimed[i + 1..];
  }

  lemma BatchEnds(s: System, m: System, b: Round, claimed: seq<Record>, proven: bool)
    requires MidBatch(s, m, b, claimed, |b.ids|, proven)
    ensures Inv(m) && Pc(m, b.a).Idle? && |m.calls| == |s.calls| + |b.ids|
    ensures proven ==> Along(s, m)
    ensures NoLiveLease(s.ledger, b.now) ==> NoLiveLease(m.ledger, b.now)
  {
    hide Inv, Along;
    assert b.ids[|b.ids|..] == [];
  }

  // ---------------------------------------------------------------- the worker loop

  lemma {:induction false} NothingDue(l: Ledger, order: seq<string>, now: int, limit: int)
    requires limit > 0 && FirstDue(l, order, now, limit) == []
    ensures forall id :: id in order && id in l.entries ==> !Due(l.entries[id], now)
  {
    if order == [] {
    } else {
      NothingDue(l, order[1..], now, limit);
      assert order == [order[0]] + order[1..];
    }
  }

  /** Nothing due and no lease running: nothing can ever be claimed again. */
  lemma Drained(s: System, m: System, now: int, limit: int)
    requires Inv(m) && Along(s, m) && NoLiveLease(m.ledger, now) && limit > 0
    requires FirstDue(m.ledger, m.ledger.order, now, limit) == []
    ensures forall id :: id in s.ledger.entries ==>
              && id in m.ledger.entries
              && Exhausted(s.ledger.entries[id], m.ledger.entries[id])
    ensures |m.calls| <= |s.calls| + Budget(s.ledger, s.ledger.order)
  {
    hide EntryOk, IdentityOk, ActorsOk, UniqueOwners, Budget;
    NothingDue(m.ledger, m.ledger.order, now, limit);
    forall id | id in s.ledger.entries
      ensures id in m.ledger.entries
      ensures Exhausted(s.ledger.entries[id], m.ledger.entries[id])
    {
      assert id in m.ledger.entries;
      assert id in m.ledger.order;
      assert EntryAlong(s.ledger.entries[id], m.ledger.entries[id]);
      assert !Due(m.ledger.entries[id], now);
    }
  }

  lemma AlongReflexive(s: System)
    ensures Along(s, s)
  {
  }

  /** A lease that has run out stays run out. */
  lemma LeasesStayOver(l: Ledger, now: int, later: int)
    requires NoLiveLease(l, now) && now <= later
    ensures NoLiveLease(l, later)
  {
  }

  /**
   * The worker loop, alone and with an adapter that always gives proof, ends, however time passes between
   * its steps: every claimable effect is SUCCEEDED or FAILED_FINAL, the others are untouched, and the
   * target was called at most once per try.
   */
  method Drain(store: InMemoryStore, adapter: Adapter, clock: Clock, worker: string, leaseFor: int, limit: int,
               ghost s: System, ghost a: nat)
    returns (ghost m: System)
    requires Embodies(store, adapter, clock, s) && Inv(s) && Pc(s, a).Idle?
    requires limit >= 1 && NoLiveLease(s.ledger, clock.readings(clock.taken)) && AlwaysProves(adapter.deliveries)
    modifies store, adapter, clock
    ensures Embodies(store, adapter, clock, m)
    ensures forall id :: id in s.ledger.entries ==>
              && id in m.ledger.entries
              && Exhausted(s.ledger.entries[id], m.ledger.entries[id])
    ensures adapter.dispatches == old(adapter.dispatches) + |m.calls| - |s.calls|
    ensures adapter.dispatches <= old(adapter.dispatches) + Budget(s.ledger, s.ledger.order)
  {
    hide Inv, Next, After, BatchRun, Along, NoLiveLease, AlwaysProves, Embodies, FirstDue, Budget, Claimable, Pc, Exhausted;
    m := s;
    AlongReflexive(s);
    var busy := true;
    ghost var last := clock.readings(clock.taken);
    while busy
      invariant Embodies(store, adapter, clock, m) && Inv(m) && Pc(m, a).Idle?
      invariant Along(s, m) && NoLiveLease(m.ledger, clock.readings(clock.taken))
      invariant adapter.dispatches == old(adapter.dispatches) + |m.calls| - |s.calls|
      invariant !busy ==> NoLiveLease(m.ledger, last) && FirstDue(m.ledger, m.ledger.order, last, limit) == []
      decreases busy, Budget(m.ledger, m.ledger.order)
    {
      LaterEmbodied(store, adapter, clock, m, clock.taken + 1);
      var now := clock.Now();
      StillEmbodies(store, adapter, clock, m);
      ghost var b := BatchFor(m, a, worker, now, leaseFor, limit);
      ghost var w := World(adapter.deliveries, adapter.dispatches, clock.readings, clock.taken);
      ghost var m' := After(m, BatchRun(b, |b.ids|, w));
      var results := DispatchOnce(store, adapter, clock, worker, now, leaseFor, limit, m, a);
      AlongSpends(m, m');
      if results == [] {
        EmptyBatch(m, b, w);
        last := now;
        busy := false;
      }
      ReadingsOf(store, adapter, clock, m', w.from - 1);
      LeasesStayOver(m'.ledger, now, clock.readings(clock.taken));
      AlongTransitive(s, m, m');
      m := m';
    }
    Drained(s, m, last, limit);
  }

  /** The clock goes on, the system is the same. */
  lemma LaterEmbodied(store: InMemoryStore, adapter: Adapter, clock: Clock, m: System, k: nat)
    requires Embodies(store, adapter, clock, m) && clock.taken <= k
    ensures store.Valid() && store.Model() == m.ledger && adapter.target == m.target
    ensures Nondecreasing(clock.readings) && m.clock <= clock.readings(k)
  {
    hide LedgerOk, Minted, MemoryStore.Tables.Represents;
  }

  lemma StillEmbodies(store: InMemoryStore, adapter: Adapter, clock: Clock, m: System)
    requires store.Valid() && store.Model() == m.ledger && adapter.target == m.target
    requires Nondecreasing(clock.readings) && m.clock <= clock.readings(clock.taken)
    ensures Embodies(store, adapter, clock, m)
  {
    hide LedgerOk, Minted, MemoryStore.Tables.Represents;
  }

  lemma ReadingsOf(store: InMemoryStore, adapter: Adapter, clock: Clock, m: System, k: nat)
    requires Embodies(store, adapter, clock, m) && k <= clock.taken
    ensures clock.readings(k) <= clock.readings(clock.taken)
  {
    hide LedgerOk, Minted, MemoryStore.Tables.Represents;
  }

  lemma AlongSpends(m: System, m': System)
    requires Along(m, m')
    ensures |m'.calls| + Budget(m'.ledger, m'.ledger.order) <= |m.calls| + Budget(m.ledger, m.ledger.order)
  {
    hide Budget;
  }

  /** A batch of nothing changes nothing. */
  lemma EmptyBatch(m: System, b: Round, w: World)
    requires b.ids == []
    ensures After(m, BatchRun(b, 0, w)) == m
  {
    BatchRunStep(m, b, 0, w);
  }
}
