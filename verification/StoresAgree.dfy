/** Any sequence of operations gets the same replies from the in-memory store and from the table stores. */
module StoresAgree {
  import opened Prelude
  import opened Identifiers
  import opened Models
  import opened Ledger
  import Spec = Ledger
  import opened LedgerProofs
  import opened StoreContracts
  import opened MemoryStore
  import opened TableStore

  datatype Operation =
    | Reserving(tenantId: string, request: Request, contract: Contract, now: int)
    | Claiming(worker: string, now: int, leaseFor: int, limit: int)
    | Attempting(id: string, expected: nat, worker: string, now: int)
    | Moving(id: string, expected: nat, target: Status, data: Metadata, now: int)
    | Getting(tenantId: string, id: string)
    | ReadingReceipt(tenantId: string, id: string)

  datatype Reply =
    | Reservations(reservation: Result<Reservation, StoreError>)
    | Claims(records: seq<Record>)
    | AttemptId(attemptId: Result<string, StoreError>)
    | MovedRecord(record: Result<Record, StoreError>)
    | Found(found: Option<Record>)
    | ReceiptIs(receipt: Option<Receipt>)

  /** What one operation does to a ledger, and its reply. */
  function Apply(l: Ledger, newId: string, op: Operation): (Ledger, Reply) {
    match op
    case Reserving(tenantId, request, contract, now) =>
      var (l', r) := Spec.Reserve(l, newId, tenantId, request, contract, now); (l', Reservations(r))
    case Claiming(worker, now, leaseFor, limit) =>
      var ids := FirstDue(l, l.order, now, limit);
      (ClaimAll(l, ids, worker, now, leaseFor), Claims(ClaimedRecords(l, ids, worker, now, leaseFor)))
    case Attempting(id, expected, worker, now) =>
      var (l', r) := Spec.StartAttempt(l, id, expected, worker, now); (l', AttemptId(r))
    case Moving(id, expected, target, data, now) =>
      var (l', r) := Spec.Transition(l, id, expected, target, data, now); (l', MovedRecord(r))
    case Getting(tenantId, id) => (l, Found(Spec.Get(l, tenantId, id)))
    case ReadingReceipt(tenantId, id) => (l, ReceiptIs(ReceiptFor(l, tenantId, id)))
  }

  method ApplyToMemory(store: InMemoryStore, op: Operation) returns (reply: Reply)
    requires store.Valid()
    modifies store
    ensures store.Valid()
    ensures (store.Model(), reply) == Apply(old(store.Model()), EffectId(old(store.nextEffectId)), op)
  {
    hide LedgerOk, Minted, MemoryStore.Tables.Represents, Spec.Reserve, Spec.Transition, Spec.StartAttempt, FirstDue, ClaimAll, ClaimedRecords,
         ReceiptFor, Spec.Get, Writes, Attempts, HandsOut, Reserves, Shows;
    RepresentsFacts(store.Fields());
    match op
    case Reserving(tenantId, request, contract, now) =>
      var r := store.Reserve(tenantId, request, contract, now);
      reply := Reservations(r);
    case Claiming(worker, now, leaseFor, limit) =>
      var r := store.ClaimDue(worker, now, leaseFor, limit);
      reply := Claims(r);
    case Attempting(id, expected, worker, now) =>
      var r := store.StartAttempt(id, expected, worker, now);
      reply := AttemptId(r);
    case Moving(id, expected, target, data, now) =>
      var r := store.Transition(id, expected, target, data, now);
      reply := MovedRecord(r);
    case Getting(tenantId, id) =>
      var r := store.Get(tenantId, id);
      reply := Found(r);
    case ReadingReceipt(tenantId, id) =>
      var r := store.Receipt(tenantId, id);
      reply := ReceiptIs(r);
  }

  // ---------------------------------------------------------------- where the stores could differ

  /** A new effect is the last in ORDER BY order. */
  ghost predicate Latest(l: Ledger, now: int) {
    forall id :: id in l.entries ==> l.entries[id].record.createdAt < now
  }

  /** No lease ends at exactly this instant. */
  ghost predicate NoTie(l: Ledger, now: int) {
    forall id :: id in l.entries && l.entries[id].lease.Some? ==> l.entries[id].lease.value.expiresAt != now
  }

  /** Lease boundaries: Postgres and the in-memory store hand out the same batch when no lease ends exactly now. */
  lemma {:induction false} SameBatch(l: Ledger, order: seq<string>, now: int, limit: int)
    requires NoTie(l, now)
    ensures FirstDue(l, order, now - 1, limit) == FirstDue(l, order, now, limit)
  {
    if order == [] || limit <= 0 {
    } else {
      var due := order[0] in l.entries && Due(l.entries[order[0]], now);
      SameBatch(l, order[1..], now, limit);
      SameBatch(l, order[1..], now, limit - 1);
    }
  }

  /** And only then: an effect whose lease ends exactly now is due in one store and not in the other. */
  lemma BoundaryDiffersIff(e: Entry, now: int)
    ensures Due(e, DueAt(Sqlite, now)) != Due(e, DueAt(Postgres, now)) <==>
            StateMachine.Claimable(e.record.status) && e.lease.Some? && e.lease.value.expiresAt == now
  {
  }

  /** The two stores hand out different unlimited batches exactly when some waiting effect's lease ends now. */
  lemma BatchesDifferIff(l: Ledger, order: seq<string>, now: int)
    requires forall i, j :: 0 <= i < j < |order| ==> order[i] != order[j]
    ensures FirstDue(l, order, DueAt(Sqlite, now), |order|) != FirstDue(l, order, DueAt(Postgres, now), |order|) <==>
            exists i :: 0 <= i < |order| && order[i] in l.entries
                        && Due(l.entries[order[i]], DueAt(Sqlite, now)) != Due(l.entries[order[i]], DueAt(Postgres, now))
  {
    hide Due;
    if i :| 0 <= i < |order| && order[i] in l.entries
            && Due(l.entries[order[i]], DueAt(Sqlite, now)) != Due(l.entries[order[i]], DueAt(Postgres, now)) {
      CountBefore(l, order, DueAt(Sqlite, now), i);
      CountBefore(l, order, DueAt(Postgres, now), i);
      FirstDueExact(l, order, DueAt(Sqlite, now), |order|, i);
      FirstDueExact(l, order, DueAt(Postgres, now), |order|, i);
      assert order[i] in FirstDue(l, order, DueAt(Sqlite, now), |order|) <==>
             order[i] !in FirstDue(l, order, DueAt(Postgres, now), |order|);
    } else {
      SameWhereDue(l, order, DueAt(Sqlite, now), DueAt(Postgres, now), |order|);
    }
  }

  lemma {:induction false} CountBefore(l: Ledger, order: seq<string>, now: int, i: nat)
    requires i < |order|
    ensures CountDue(l, order[..i], now) < |order|
  {
    CountAtMost(l, order[..i], now);
  }

  lemma {:induction false} CountAtMost(l: Ledger, order: seq<string>, now: int)
    ensures CountDue(l, order, now) <= |order|
  {
    if order == [] {
    } else {
      CountAtMost(l, order[1..], now);
    }
  }

  lemma {:induction false} SameWhereDue(l: Ledger, order: seq<string>, at: int, at': int, limit: int)
    requires forall i :: 0 <= i < |order| && order[i] in l.entries ==>
               Due(l.entries[order[i]], at) == Due(l.entries[order[i]], at')
    ensures FirstDue(l, order, at, limit) == FirstDue(l, order, at', limit)
  {
    if order == [] || limit <= 0 {
    } else {
      assert order[0] in l.entries ==> Due(l.entries[order[0]], at) == Due(l.entries[order[0]], at');
      forall i | 0 <= i < |order[1..]| && order[1..][i] in l.entries
        ensures Due(l.entries[order[1..][i]], at) == Due(l.entries[order[1..][i]], at')
      {
        assert order[1..][i] == order[i + 1];
      }
      SameWhereDue(l, order[1..], at, at', limit);
      SameWhereDue(l, order[1..], at, at', limit - 1);
    }
  }

  // ---------------------------------------------------------------- one operation on the tables

  ghost predicate Comparable(dialect: Dialect, l: Ledger, op: Operation) {
    && (op.Reserving? ==> Latest(l, op.now))
    && (op.Claiming? && dialect.Postgres? ==> NoTie(l, op.now))
  }

  lemma LatestIsPlacedLast(db: Database, record: Record)
    requires InOrder(db.effects, db.index) && Latest(db.View(), record.createdAt)
    ensures Placed(db.effects, db.index, record) == db.index + [record.effectId]
  {
    hide Database.EntryAt;
    ViewFacts(db);
    forall i | 0 <= i < |db.index|
      ensures db.index[i] in db.effects && Earlier(db.effects[db.index[i]].record, record)
    {
      assert db.View().entries[db.index[i]].record.createdAt < record.createdAt;
      RowRecord(db, db.index[i]);
    }
    PlacedLast(db.effects, db.index, record);
  }

  lemma ReserveAppends(l: Ledger, id: string, tenantId: string, request: Request, contract: Contract, now: int)
    ensures var (l', r) := Spec.Reserve(l, id, tenantId, request, contract, now);
            && (r.Ok? && r.value.created ==>
                  l'.order == l.order + [id] && r.value.effect.effectId == id && r.value.effect.createdAt == now)
            && (!(r.Ok? && r.value.created) ==> l' == l)
  {
  }

  method ApplyToTable(store: TableStore, newId: string, op: Operation) returns (reply: Reply)
    requires store.Valid() && newId !in store.effects && Comparable(store.dialect, store.Model(), op)
    modifies store
    ensures store.Valid()
    ensures (store.Model(), reply) == Apply(old(store.Model()), newId, op)
  {
    hide LedgerOk, Database.DatabaseOk, Database.View, InOrder, Spec.Reserve, Spec.Transition, Spec.StartAttempt, FirstDue, ClaimAll,
         ClaimedRecords, ReceiptFor, Spec.Get, Placed, Latest, NoTie, Writes, Attempts, HandsOut, Reserves, Shows;
    ghost var db := store.Contents();
    ViewFacts(db);
    match op
    case Reserving(tenantId, request, contract, now) =>
      ReserveAppends(db.View(), newId, tenantId, request, contract, now);
      ghost var expected := Spec.Reserve(db.View(), newId, tenantId, request, contract, now).1;
      if expected.Ok? && expected.value.created {
        LatestIsPlacedLast(db, expected.value.effect);
      }
      var r := store.Reserve(newId, tenantId, request, contract, now);
      reply := Reservations(r);
    case Claiming(worker, now, leaseFor, limit) =>
      if store.dialect.Postgres? {
        SameBatch(db.View(), db.index, now, limit);
      }
      var r := store.ClaimDue(worker, now, leaseFor, limit);
      reply := Claims(r);
    case Attempting(id, expected, worker, now) =>
      var r := store.StartAttempt(id, expected, worker, now);
      reply := AttemptId(r);
    case Moving(id, expected, target, data, now) =>
      var r := store.Transition(id, expected, target, data, now);
      reply := MovedRecord(r);
    case Getting(tenantId, id) =>
      var r := store.Get(tenantId, id);
      reply := Found(r);
    case ReadingReceipt(tenantId, id) =>
      var r := store.Receipt(tenantId, id);
      reply := ReceiptIs(r);
  }

  // ---------------------------------------------------------------- operation sequences

  /**
   * Creations come at strictly later instants, and for Postgres no claim comes at the very instant a lease
   * ends; both can be read off the operations, given the newest creation and the lease ends so far.
   */
  predicate Distinguishable(dialect: Dialect, ops: seq<Operation>, newest: int, ends: set<int>) {
    if ops == [] then true
    else
      match ops[0]
      case Reserving(_, _, _, now) => now > newest && Distinguishable(dialect, ops[1..], now, ends)
      case Claiming(_, now, leaseFor, _) =>
        (dialect.Postgres? ==> now !in ends) && Distinguishable(dialect, ops[1..], newest, ends + {now + leaseFor})
      case _ => Distinguishable(dialect, ops[1..], newest, ends)
  }

  ghost predicate Within(l: Ledger, newest: int, ends: set<int>) {
    && (forall id :: id in l.entries ==> l.entries[id].record.createdAt <= newest)
    && (forall id :: id in l.entries && l.entries[id].lease.Some? ==> l.entries[id].lease.value.expiresAt in ends)
  }

  function NewestAfter(op: Operation, newest: int): int {
    if op.Reserving? then op.now else newest
  }

  function EndsAfter(op: Operation, ends: set<int>): set<int> {
    if op.Claiming? then ends + {op.now + op.leaseFor} else ends
  }

  lemma StaysWithin(l: Ledger, newId: string, op: Operation, newest: int, ends: set<int>)
    requires Within(l, newest, ends) && (op.Reserving? ==> op.now > newest)
    ensures Within(Apply(l, newId, op).0, NewestAfter(op, newest), EndsAfter(op, ends))
  {
    hide FirstDue, Identity.RequestHash, Identity.OperationKeyOf, Identifiers.AttemptId, StateMachine.Allowed, ReceiptFor;
  }

  lemma WithinComparable(dialect: Dialect, l: Ledger, op: Operation, newest: int, ends: set<int>)
    requires Within(l, newest, ends)
    requires op.Reserving? ==> op.now > newest
    requires op.Claiming? && dialect.Postgres? ==> op.now !in ends
    ensures Comparable(dialect, l, op)
  {
  }

  /** Side by side, reply for reply: the stores agree on every operation sequence. */
  method Compare(memory: InMemoryStore, table: TableStore, ops: seq<Operation>, ghost newest: int, ghost ends: set<int>)
    returns (fromMemory: seq<Reply>, fromTable: seq<Reply>)
    requires memory.Valid() && table.Valid() && memory.Model() == table.Model()
    requires Within(memory.Model(), newest, ends) && Distinguishable(table.dialect, ops, newest, ends)
    modifies memory, table
    ensures memory.Valid() && table.Valid() && memory.Model() == table.Model()
    ensures fromMemory == fromTable && |fromMemory| == |ops|
  {
    hide LedgerOk, Minted, MemoryStore.Tables.Represents, Database.DatabaseOk, Database.View, InOrder, Apply, Within, Comparable;
    fromMemory, fromTable := [], [];
    ghost var latest, seen := newest, ends;
    var i := 0;
    assert ops[0..] == ops;
    while i < |ops|
      invariant 0 <= i <= |ops| && |fromMemory| == i && fromMemory == fromTable
      invariant memory.Valid() && table.Valid() && memory.Model() == table.Model()
      invariant Within(memory.Model(), latest, seen) && Distinguishable(table.dialect, ops[i..], latest, seen)
    {
      assert ops[i..][1..] == ops[i + 1..] && ops[i..][0] == ops[i];
      var newId := EffectId(memory.nextEffectId);
      FreshInBoth(memory, table);
      WithinComparable(table.dialect, table.Model(), ops[i], latest, seen);
      StaysWithin(memory.Model(), newId, ops[i], latest, seen);
      var first := ApplyToMemory(memory, ops[i]);
      var second := ApplyToTable(table, newId, ops[i]);
      fromMemory, fromTable := fromMemory + [first], fromTable + [second];
      latest, seen := NewestAfter(ops[i], latest), EndsAfter(ops[i], seen);
      i := i + 1;
    }
  }

  lemma FreshInBoth(memory: InMemoryStore, table: TableStore)
    requires memory.Valid() && table.Valid() && memory.Model() == table.Model()
    ensures EffectId(memory.nextEffectId) !in table.effects
  {
    hide LedgerOk, Minted, MemoryStore.Tables.Represents, Database.DatabaseOk, Database.View, InOrder, EffectId;
    FreshEffectId(memory.records, memory.nextEffectId);
    RepresentsFacts(memory.Fields());
    ViewFacts(table.Contents());
  }
}
