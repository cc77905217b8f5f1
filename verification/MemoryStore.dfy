/**
 * The in-memory store (src/effect_broker/store/memory.py): parallel dictionaries updated in place
 * under one lock, so each method is one atomic step. Every method is proved to do to the ledger it
 * represents exactly what the Ledger module says.
 */
module MemoryStore {
  import opened Prelude
  import opened Identifiers
  import opened Identity
  import opened Models
  import opened StateMachine
  import opened Ledger
  import Spec = Ledger
  import opened LedgerProofs
  import opened StoreContracts

  // ---------------------------------------------------------------- the represented ledger

  /** The parallel dictionaries of the store. */
  datatype Tables = Tables(
    secret: string,
    records: map<string, Record>,
    identity: map<(string, string), string>,
    leases: map<string, Lease>,
    attempts: map<string, seq<Attempt>>,
    events: map<string, seq<Event>>,
    order: seq<string>)
  {
    predicate Parallel() {
      attempts.Keys == records.Keys && events.Keys == records.Keys && leases.Keys <= records.Keys
    }

    function EntryAt(id: string): Entry
      requires Parallel() && id in records
    {
      Entry(records[id], if id in leases then Some(leases[id]) else None, attempts[id], events[id])
    }

    function Represents(): Ledger
      requires Parallel()
    {
      Ledger(secret, map id | id in records :: EntryAt(id), identity, order)
    }
  }

  /** Ids are minted in order and never reused. */
  ghost predicate Minted(records: map<string, Record>, next: nat) {
    forall id :: id in records ==> exists n: nat :: n < next && id == EffectId(n)
  }

  lemma FreshEffectId(records: map<string, Record>, next: nat)
    requires Minted(records, next)
    ensures EffectId(next) !in records
  {
    if EffectId(next) in records {
      var n: nat :| n < next && EffectId(next) == EffectId(n);
      EffectIdInjective(next, n);
    }
  }

  lemma MintedGrows(records: map<string, Record>, records': map<string, Record>, next: nat, next': nat)
    requires Minted(records, next) && next <= next'
    requires forall id :: id in records' ==> id in records || (next < next' && id == EffectId(next))
    ensures Minted(records', next')
  {
    forall id | id in records'
      ensures exists n: nat :: n < next' && id == EffectId(n)
    {
      if id in records {
        var n: nat :| n < next && id == EffectId(n);
        assert n < next';
      } else {
        assert next < next';
      }
    }
  }

  /** Changing one entry of the dictionaries changes one entry of the ledger. */
  lemma OneEntry(t: Tables, t': Tables, id: string)
    requires t.Parallel() && t'.Parallel() && t'.secret == t.secret
    requires id in t'.records && t'.records.Keys == t.records.Keys + {id}
    requires forall x :: x in t.records && x != id ==> t'.EntryAt(x) == t.EntryAt(x)
    ensures t'.Represents().entries == t.Represents().entries[id := t'.EntryAt(id)]
  {
    hide Tables.EntryAt;
    var got, want := t'.Represents().entries, t.Represents().entries[id := t'.EntryAt(id)];
    assert got.Keys == t'.records.Keys && want.Keys == t.records.Keys + {id};
    forall x | x in got
      ensures x in want && got[x] == want[x]
    {
    }
    assert got == want;
  }

  function WithEvent(t: Tables, id: string, version: nat, at: int, body: EventBody): Tables
    requires id in t.events
  {
    t.(events := t.events[id := Appended(t.events[id], version, at, body)])
  }

  function InsertedTables(t: Tables, id: string, record: Record): Tables {
    WithEvent(t.(identity := t.identity[OperationOf(record) := id],
                 records := t.records[id := record],
                 order := t.order + [id],
                 attempts := t.attempts[id := []],
                 events := t.events[id := []]),
              id, record.version, record.createdAt, Reserved(record.status))
  }

  lemma InsertRepresents(t: Tables, id: string, record: Record)
    requires t.Parallel() && id !in t.records
    ensures InsertedTables(t, id, record).Parallel()
    ensures InsertedTables(t, id, record).Represents() == Inserted(t.Represents(), id, NewEntry(record))
  {
    OneEntry(t, InsertedTables(t, id, record), id);
  }

  function ClaimedTables(t: Tables, id: string, worker: string, now: int, leaseFor: int): Tables
    requires t.Parallel() && id in t.records
  {
    var updated := t.records[id].(version := t.records[id].version + 1, updatedAt := now);
    WithEvent(t.(records := t.records[id := updated], leases := t.leases[id := Lease(worker, now + leaseFor)]),
              id, updated.version, now, Claimed(worker, now + leaseFor))
  }

  lemma ClaimRepresents(t: Tables, id: string, worker: string, now: int, leaseFor: int)
    requires t.Parallel() && id in t.records
    ensures var t' := ClaimedTables(t, id, worker, now, leaseFor);
            && t'.Parallel() && t'.records.Keys == t.records.Keys
            && t'.Represents() == t.Represents().(entries :=
                 t.Represents().entries[id := ClaimEntry(t.EntryAt(id), worker, now, leaseFor)])
  {
    OneEntry(t, ClaimedTables(t, id, worker, now, leaseFor), id);
  }

  function AttemptedTables(t: Tables, id: string, worker: string, now: int): Tables
    requires t.Parallel() && id in t.records
  {
    var ordinal := |t.attempts[id]| + 1;
    var attemptId := AttemptId(id, ordinal);
    WithEvent(t.(attempts := t.attempts[id := t.attempts[id] + [Attempt(attemptId, id, ordinal, worker, t.records[id].version, now)]]),
              id, t.records[id].version, now, AttemptStarted(attemptId, ordinal, worker))
  }

  lemma AttemptRepresents(t: Tables, id: string, worker: string, now: int)
    requires t.Parallel() && id in t.records && t.records[id].effectId == id
    ensures var t' := AttemptedTables(t, id, worker, now);
            && t'.Parallel()
            && t'.Represents() == t.Represents().(entries :=
                 t.Represents().entries[id := AttemptEntry(t.EntryAt(id), worker, now)])
  {
    hide Tables.Represents, AttemptId;
    var t' := AttemptedTables(t, id, worker, now);
    assert t'.EntryAt(id) == AttemptEntry(t.EntryAt(id), worker, now);
    OneEntry(t, t', id);
    RepresentsFacts(t);
    RepresentsFacts(t');
  }

  function MovedTables(t: Tables, id: string, target: Status, data: Metadata, now: int): Tables
    requires t.Parallel() && id in t.records
  {
    var updated := t.records[id].(status := target, version := t.records[id].version + 1, updatedAt := now);
    WithEvent(t.(records := t.records[id := updated], leases := if Claimable(target) then t.leases else t.leases - {id}),
              id, updated.version, now, Moved(t.records[id].status, target, data))
  }

  lemma MovedAt(t: Tables, id: string, target: Status, data: Metadata, now: int)
    requires t.Parallel() && id in t.records
    ensures var t' := MovedTables(t, id, target, data, now);
            && t'.Parallel() && t'.records.Keys == t.records.Keys
            && t'.secret == t.secret && t'.identity == t.identity && t'.order == t.order
            && t'.EntryAt(id) == MoveEntry(t.EntryAt(id), target, data, now)
            && forall x :: x in t.records && x != id ==> t'.EntryAt(x) == t.EntryAt(x)
  {
  }

  lemma MoveRepresents(t: Tables, id: string, target: Status, data: Metadata, now: int)
    requires t.Parallel() && id in t.records
    ensures var t' := MovedTables(t, id, target, data, now);
            && t'.Parallel() && t'.records.Keys == t.records.Keys
            && t'.Represents() == t.Represents().(entries :=
                 t.Represents().entries[id := MoveEntry(t.EntryAt(id), target, data, now)])
  {
    hide Tables.Represents, Tables.EntryAt, MovedTables, MoveEntry;
    var t' := MovedTables(t, id, target, data, now);
    MovedAt(t, id, target, data, now);
    OneEntry(t, t', id);
    RepresentsFacts(t);
    RepresentsFacts(t');
  }

  // ---------------------------------------------------------------- due effects

  /** How many of the listed effects are due. */
  function CountDue(l: Ledger, order: seq<string>, now: int): nat {
    if order == [] then 0
    else (if order[0] in l.entries && Due(l.entries[order[0]], now) then 1 else 0) + CountDue(l, order[1..], now)
  }

  /** A batch holds exactly the due effects that have fewer than limit due effects before them. */
  lemma {:induction false} FirstDueExact(l: Ledger, order: seq<string>, now: int, limit: int, i: nat)
    requires i < |order|
    requires forall j, k :: 0 <= j < k < |order| ==> order[j] != order[k]
    ensures order[i] in FirstDue(l, order, now, limit) <==>
            order[i] in l.entries && Due(l.entries[order[i]], now) && CountDue(l, order[..i], now) < limit
  {
    if limit <= 0 {
    } else if i == 0 {
      assert order[..0] == [];
      var rest := FirstDue(l, order[1..], now, limit);
      assert order[0] in rest ==> order[0] in order[1..];
    } else {
      var due := order[0] in l.entries && Due(l.entries[order[0]], now);
      FirstDueExact(l, order[1..], now, if due then limit - 1 else limit, i - 1);
      assert order[..i][1..] == order[1..][..i - 1];
      assert order[i] != order[0];
    }
  }

  /** What is left of a batch after looking at one more effect. */
  lemma FirstDueStep(l: Ledger, order: seq<string>, i: nat, now: int, limit: int, ids: seq<string>)
    requires i < |order| && limit > |ids|
    ensures var due := order[i] in l.entries && Due(l.entries[order[i]], now);
            var found := if due then ids + [order[i]] else ids;
            found + FirstDue(l, order[i + 1..], now, limit - |found|) == ids + FirstDue(l, order[i..], now, limit - |ids|)
  {
    assert order[i..][1..] == order[i + 1..];
    if order[i] in l.entries && Due(l.entries[order[i]], now) {
      var rest := FirstDue(l, order[i + 1..], now, limit - |ids| - 1);
      assert (ids + [order[i]]) + rest == ids + ([order[i]] + rest);
    }
  }

  /** Claiming one more effect. */
  lemma ClaimOneMore(l: Ledger, ids: seq<string>, id: string, worker: string, now: int, leaseFor: int)
    requires id in l.entries && id !in ids
    ensures ClaimAll(l, ids + [id], worker, now, leaseFor)
         == ClaimAll(l, ids, worker, now, leaseFor).(
              entries := ClaimAll(l, ids, worker, now, leaseFor).entries[id := ClaimEntry(l.entries[id], worker, now, leaseFor)])
  {
    hide ClaimEntry;
    assert forall x :: x in ids + [id] <==> x in ids || x == id;
  }

  lemma ClaimNone(l: Ledger, worker: string, now: int, leaseFor: int)
    ensures ClaimAll(l, [], worker, now, leaseFor) == l
  {
    assert ClaimAll(l, [], worker, now, leaseFor).entries == l.entries;
  }

  // ---------------------------------------------------------------- the claiming loop

  datatype Batch = Batch(worker: string, now: int, leaseFor: int, limit: int)

  /** The first i effects have been looked at and ids of them claimed. */
  ghost predicate MidClaim(l: Ledger, t: Tables, b: Batch, i: nat, ids: seq<string>, claimed: seq<Record>) {
    && LedgerOk(l) && t.order == l.order && i <= |l.order|
    && t.Parallel() && t.records.Keys == l.entries.Keys
    && (forall id :: id in ids ==> id in l.order[..i])
    && (forall id :: id in ids ==> id in l.entries && Due(l.entries[id], b.now))
    && ids + FirstDue(l, l.order[i..], b.now, b.limit - |ids|) == FirstDue(l, l.order, b.now, b.limit)
    && t.Represents() == ClaimAll(l, ids, b.worker, b.now, b.leaseFor)
    && claimed == ClaimedRecords(l, ids, b.worker, b.now, b.leaseFor)
  }

  lemma ClaimBegins(l: Ledger, t: Tables, b: Batch)
    requires LedgerOk(l) && t.Parallel() && t.Represents() == l
    ensures MidClaim(l, t, b, 0, [], [])
    ensures b.limit <= 0 ==>
              && FirstDue(l, l.order, b.now, b.limit) == []
              && ClaimAll(l, [], b.worker, b.now, b.leaseFor) == l
              && ClaimedRecords(l, [], b.worker, b.now, b.leaseFor) == []
  {
    hide LedgerOk, FirstDue, ClaimEntry, Due;
    ClaimNone(l, b.worker, b.now, b.leaseFor);
    RepresentsFacts(t);
    assert l.order[0..] == l.order;
    if b.limit <= 0 {
      FirstDueEnds(l, l.order, b.now, b.limit);
    }
  }

  /** The next effect is claimed when it is due, and skipped otherwise. */
  lemma ClaimStep(l: Ledger, t: Tables, b: Batch, i: nat, ids: seq<string>, claimed: seq<Record>)
    requires MidClaim(l, t, b, i, ids, claimed) && i < |t.order| && |ids| < b.limit
    ensures t.Parallel() && t.order[i] in t.records
    ensures var id := t.order[i];
            var due := Claimable(t.records[id].status) && (id !in t.leases || t.leases[id].expiresAt <= b.now);
            if due then
              MidClaim(l, ClaimedTables(t, id, b.worker, b.now, b.leaseFor), b, i + 1, ids + [id],
                       claimed + [ClaimEntry(t.EntryAt(id), b.worker, b.now, b.leaseFor).record])
            else MidClaim(l, t, b, i + 1, ids, claimed)
  {
    hide LedgerOk, FirstDue, ClaimEntry, ClaimAll, ClaimedRecords, Due, Tables.Represents, Tables.EntryAt, ClaimedTables;
    var id := t.order[i];
    EntryInOrder(l, l.order, i);
    NotYetClaimed(t, l, ids, id, b.worker, b.now, b.leaseFor);
    DueInTables(t, id, b.now);
    FirstDueStep(l, l.order, i, b.now, b.limit, ids);
    assert l.order[..i + 1] == l.order[..i] + [id];
    if Due(l.entries[id], b.now) {
      ClaimRepresents(t, id, b.worker, b.now, b.leaseFor);
      ClaimOneMore(l, ids, id, b.worker, b.now, b.leaseFor);
      ClaimedGrows(l, ids, id, b.worker, b.now, b.leaseFor);
      ClaimedTablesFacts(t, id, b.worker, b.now, b.leaseFor);
    }
  }

  lemma ClaimedTablesFacts(t: Tables, id: string, worker: string, now: int, leaseFor: int)
    requires t.Parallel() && id in t.records
    ensures ClaimedTables(t, id, worker, now, leaseFor).order == t.order
  {
  }

  lemma ClaimEnds(l: Ledger, records: map<string, Record>, t: Tables, b: Batch, i: nat, ids: seq<string>,
                  claimed: seq<Record>, next: nat)
    requires MidClaim(l, t, b, i, ids, claimed) && (i == |t.order| || |ids| >= b.limit)
    requires Minted(records, next) && records.Keys == l.entries.Keys
    ensures t.Parallel() && LedgerOk(t.Represents()) && Minted(t.records, next)
    ensures var first := FirstDue(l, l.order, b.now, b.limit);
            && t.Represents() == ClaimAll(l, first, b.worker, b.now, b.leaseFor)
            && claimed == ClaimedRecords(l, first, b.worker, b.now, b.leaseFor)
  {
    hide LedgerOk, Minted, FirstDue, ClaimEntry, ClaimAll, ClaimedRecords, Due, Tables.Represents;
    FirstDueEnds(l, l.order[i..], b.now, b.limit - |ids|);
    assert ids + [] == ids;
    ClaimAllKeepsLedger(l, ids, b.worker, b.now, b.leaseFor);
    MintedGrows(records, t.records, next, next);
  }

  // ---------------------------------------------------------------- the store

  class InMemoryStore {
    const secret: string
    var records: map<string, Record>
    var identity: map<(string, string), string>
    var leases: map<string, Lease>
    var attempts: map<string, seq<Attempt>>
    var events: map<string, seq<Event>>
    var order: seq<string>
    var nextEffectId: nat

    function Fields(): Tables
      reads this
    {
      Tables(secret, records, identity, leases, attempts, events, order)
    }

    ghost predicate Valid()
      reads this
    {
      Fields().Parallel() && Minted(records, nextEffectId) && LedgerOk(Fields().Represents())
    }

    ghost function Model(): Ledger
      requires Valid()
      reads this
    {
      Fields().Represents()
    }

    constructor (secret: string)
      ensures Valid() && this.secret == secret
      ensures Model() == EmptyLedger(secret)
    {
      this.secret := secret;
      records, identity, leases, attempts, events, order := map[], map[], map[], map[], map[], [];
      nextEffectId := 1;
      new;
      EmptyLedgerOk(secret);
      assert Fields().Represents() == EmptyLedger(secret);
    }

    method AppendEvent(id: string, version: nat, at: int, body: EventBody)
      requires id in events
      modifies this`events
      ensures events == old(events)[id := Appended(old(events)[id], version, at, body)]
    {
      events := events[id := events[id] + [Event(|events[id]| + 1, version, at, body)]];
    }

    /** A reservation is created once per operation; a replay or a conflict leaves the store as it was. */
    method Reserve(tenantId: string, request: Request, contract: Contract, now: int)
      returns (r: Result<Reservation, StoreError>)
      requires Valid()
      modifies this
      ensures Valid()
      ensures (Model(), r) == Spec.Reserve(old(Model()), EffectId(old(nextEffectId)), tenantId, request, contract, now)
      ensures Reserves(old(Model()), Model(), EffectId(old(nextEffectId)), tenantId, request, contract, now, r)
    {
      hide Reserves;
      ghost var before := Model();
      ReserveReserves(before, EffectId(nextEffectId), tenantId, request, contract, now);
      FreshEffectId(records, nextEffectId);
      ReserveKeepsLedger(before, EffectId(nextEffectId), tenantId, request, contract, now);
      var digest := RequestHash(request.tool, request.arguments, contract.name, contract.version);
      if digest.Err? {
        return Err(NotCanonical(digest.error));
      }
      var operation := (tenantId, request.operationKey);
      if operation in identity {
        assert before.identity[operation] in before.entries;
        var existing := records[identity[operation]];
        if existing.requestHash != digest.value {
          return Err(PayloadConflict(request.operationKey, existing.requestHash, digest.value));
        }
        return Ok(Reservation(existing, false, true));
      }
      r := Insert(digest.value, tenantId, request, contract, now);
    }

    method Insert(digest: Digest, tenantId: string, request: Request, contract: Contract, now: int)
      returns (r: Result<Reservation, StoreError>)
      requires Valid() && EffectId(nextEffectId) !in records
      requires RequestHash(request.tool, request.arguments, contract.name, contract.version) == Ok(digest)
      requires (tenantId, request.operationKey) !in identity
      modifies this
      ensures Valid()
      ensures var record := NewRecord(secret, EffectId(old(nextEffectId)), tenantId, request, digest, contract, now);
              && Model() == Inserted(old(Model()), EffectId(old(nextEffectId)), NewEntry(record))
              && r == Ok(Reservation(record, true, false))
    {
      hide LedgerOk, Minted, NewRecord, InsertedTables, Inserted, NewEntry, Tables.Represents;
      ghost var before, fields := Model(), Fields();
      var id := EffectId(nextEffectId);
      var record := NewRecord(secret, id, tenantId, request, digest, contract, now);
      InsertRow(id, record);
      nextEffectId := nextEffectId + 1;
      r := Ok(Reservation(record, true, false));
      RepresentsFacts(fields);
      InsertRepresents(fields, id, record);
      NewRecordFacts(secret, id, tenantId, request, digest, contract, now);
      InsertKeepsLedger(before, id, NewEntry(record));
      InsertedFacts(fields, id, record);
      MintedGrows(fields.records, records, nextEffectId - 1, nextEffectId);
    }

    method InsertRow(id: string, record: Record)
      modifies this`identity, this`records, this`order, this`attempts, this`events
      ensures Fields() == InsertedTables(old(Fields()), id, record)
    {
      identity := identity[(record.tenantId, record.request.operationKey) := id];
      records := records[id := record];
      order := order + [id];
      attempts := attempts[id := []];
      events := events[id := []];
      AppendEvent(id, record.version, record.createdAt, Reserved(record.status));
    }

    /** Claims, in insertion order, the effects that are due, until the limit is reached. */
    method ClaimDue(worker: string, now: int, leaseFor: int, limit: int) returns (claimed: seq<Record>)
      requires Valid()
      modifies this`records, this`leases, this`events
      ensures Valid()
      ensures var ids := FirstDue(old(Model()), old(order), now, limit);
              && Model() == ClaimAll(old(Model()), ids, worker, now, leaseFor)
              && claimed == ClaimedRecords(old(Model()), ids, worker, now, leaseFor)
      ensures HandsOut(old(Model()), Model(), claimed, worker, now, leaseFor, limit, false)
    {
      hide LedgerOk, Minted, MidClaim, Tables.Represents, Tables.EntryAt, ClaimAll, ClaimedTables, ClaimedRecords, FirstDue, Due, HandsOut;
      ghost var l, batch := Model(), Batch(worker, now, leaseFor, limit);
      ClaimHandsOut(l, worker, now, leaseFor, limit, false);
      ghost var ids: seq<string> := [];
      claimed := [];
      RepresentsFacts(Fields());
      ClaimBegins(l, Fields(), batch);
      if limit <= 0 {
        return;
      }
      var i := 0;
      while i < |order| && |claimed| < limit
        invariant 0 <= i <= |order| && |ids| == |claimed|
        invariant MidClaim(l, Fields(), batch, i, ids, claimed)
      {
        var id := order[i];
        ClaimStep(l, Fields(), batch, i, ids, claimed);
        if Claimable(records[id].status) && (id !in leases || leases[id].expiresAt <= now) {
          var updated := ClaimRow(id, worker, now, leaseFor);
          ids := ids + [id];
          claimed := claimed + [updated];
        }
        i := i + 1;
      }
      ClaimEnds(l, old(records), Fields(), batch, i, ids, claimed, nextEffectId);
    }

    method ClaimRow(id: string, worker: string, now: int, leaseFor: int) returns (updated: Record)
      requires Fields().Parallel() && id in records
      modifies this`records, this`leases, this`events
      ensures Fields() == ClaimedTables(old(Fields()), id, worker, now, leaseFor)
      ensures updated == ClaimEntry(old(Fields()).EntryAt(id), worker, now, leaseFor).record
    {
      updated := records[id].(version := records[id].version + 1, updatedAt := now);
      records := records[id := updated];
      leases := leases[id := Lease(worker, now + leaseFor)];
      AppendEvent(id, updated.version, now, Claimed(worker, now + leaseFor));
    }

    /** The lookup every update starts with. */
    method RecordForUpdate(id: string, expected: nat) returns (r: Result<Record, StoreError>)
      requires Valid()
      ensures match ForUpdate(Model(), id, expected)
              case Ok(e) => r == Ok(e.record)
              case Err(error) => r == Err(error)
    {
      RepresentsFacts(Fields());
      if id !in records {
        return Err(UnknownEffect(id));
      }
      if records[id].version != expected {
        return Err(VersionConflict(id));
      }
      r := Ok(records[id]);
    }

    /** Adds an attempt row; the version is checked, the status is not. */
    method StartAttempt(id: string, expected: nat, worker: string, now: int) returns (r: Result<string, StoreError>)
      requires Valid()
      modifies this`attempts, this`events
      ensures Valid()
      ensures (Model(), r) == Spec.StartAttempt(old(Model()), id, expected, worker, now)
      ensures Attempts(old(Model()), Model(), id, expected, worker, now, r)
    {
      hide LedgerOk, Minted, Tables.Represents, AttemptEntry, AttemptedTables, AttemptId, Attempts;
      ghost var l, fields := Model(), Fields();
      StartAttempts(l, id, expected, worker, now);
      RepresentsFacts(fields);
      StartAttemptKeepsLedger(l, id, expected, worker, now);
      var found := RecordForUpdate(id, expected);
      if found.Err? {
        return Err(found.error);
      }
      EntryOfTables(fields, id);
      var attemptId := AttemptRow(id, worker, now);
      r := Ok(attemptId);
      AttemptRepresents(fields, id, worker, now);
    }

    method AttemptRow(id: string, worker: string, now: int) returns (attemptId: string)
      requires Fields().Parallel() && id in records
      modifies this`attempts, this`events
      ensures Fields() == AttemptedTables(old(Fields()), id, worker, now)
      ensures attemptId == AttemptId(id, |old(attempts)[id]| + 1)
    {
      var ordinal := |attempts[id]| + 1;
      attemptId := AttemptId(id, ordinal);
      attempts := attempts[id := attempts[id] + [Attempt(attemptId, id, ordinal, worker, records[id].version, now)]];
      AppendEvent(id, records[id].version, now, AttemptStarted(attemptId, ordinal, worker));
    }

    /** The fenced write: version and status graph are checked, then record, lease and log change at once. */
    method Transition(id: string, expected: nat, target: Status, data: Metadata, now: int)
      returns (r: Result<Record, StoreError>)
      requires Valid()
      modifies this`records, this`leases, this`events
      ensures Valid()
      ensures (Model(), r) == Spec.Transition(old(Model()), id, expected, target, data, now)
      ensures Writes(old(Model()), Model(), id, expected, target, data, now, r)
    {
      hide LedgerOk, Minted, Tables.Represents, MoveEntry, Allowed, MovedTables, Writes;
      ghost var l, fields := Model(), Fields();
      TransitionWrites(l, id, expected, target, data, now);
      RepresentsFacts(fields);
      TransitionKeepsLedger(l, id, expected, target, data, now);
      var found := RecordForUpdate(id, expected);
      if found.Err? {
        return Err(found.error);
      }
      var record := found.value;
      EntryOfTables(fields, id);
      if !Allowed(record.status, target) {
        return Err(InvalidTransition(record.status, target));
      }
      var updated := MoveRow(id, target, data, now);
      r := Ok(updated);
      MoveRepresents(fields, id, target, data, now);
      MintedGrows(fields.records, records, nextEffectId, nextEffectId);
    }

    method MoveRow(id: string, target: Status, data: Metadata, now: int) returns (updated: Record)
      requires Fields().Parallel() && id in records
      modifies this`records, this`leases, this`events
      ensures Fields() == MovedTables(old(Fields()), id, target, data, now)
      ensures updated == MoveEntry(old(Fields()).EntryAt(id), target, data, now).record
    {
      var record := records[id];
      updated := record.(status := target, version := record.version + 1, updatedAt := now);
      records := records[id := updated];
      if !Claimable(target) {
        leases := leases - {id};
      }
      AppendEvent(id, updated.version, now, Moved(record.status, target, data));
    }

    /** A record is shown to its own tenant and to nobody else. */
    method Get(tenantId: string, id: string) returns (r: Option<Record>)
      requires Valid()
      ensures r == Spec.Get(Model(), tenantId, id)
      ensures r.Some? <==> id in Model().entries && Model().entries[id].record.tenantId == tenantId
      ensures r.Some? ==> r.value == Model().entries[id].record
    {
      if id !in records || records[id].tenantId != tenantId {
        return None;
      }
      r := Some(records[id]);
    }

    /** Scans the log backwards for the last move to SUCCEEDED. */
    method Receipt(tenantId: string, id: string) returns (r: Option<Receipt>)
      requires Valid()
      ensures r == ReceiptFor(Model(), tenantId, id)
      ensures Shows(Model(), tenantId, id, r)
    {
      hide LedgerOk, Minted, Shows, LastSuccess;
      ReceiptShows(Model(), tenantId, id);
      var found := Get(tenantId, id);
      if found.None? {
        return None;
      }
      var log := events[id];
      var i := |log|;
      assert log[..i] == log;
      while i > 0
        invariant 0 <= i <= |log|
        invariant LastSuccess(log) == LastSuccess(log[..i])
      {
        i := i - 1;
        LastSuccessStep(log, i);
        if log[i].body.Moved? && log[i].body.to == Succeeded {
          return Some(ReceiptOf(found.value, log[i].body.metadata, log[i].at));
        }
      }
      r := None;
    }
  }

  lemma RepresentsFacts(t: Tables)
    requires t.Parallel()
    ensures var l := t.Represents();
            && l.secret == t.secret && l.identity == t.identity && l.order == t.order
            && l.entries.Keys == t.records.Keys
            && forall id :: id in t.records ==> l.entries[id] == t.EntryAt(id)
  {
  }

  /** The dictionaries of a sound ledger, read at one effect. */
  lemma EntryOfTables(t: Tables, id: string)
    requires t.Parallel() && id in t.records && LedgerOk(t.Represents())
    ensures id in t.Represents().entries && t.Represents().entries[id] == t.EntryAt(id)
    ensures t.records[id].effectId == id
  {
    EntryFacts(t.Represents(), id);
  }

  lemma ClaimedGrows(l: Ledger, ids: seq<string>, id: string, worker: string, now: int, leaseFor: int)
    requires forall x :: x in ids ==> x in l.entries
    requires id in l.entries
    ensures ClaimedRecords(l, ids + [id], worker, now, leaseFor)
         == ClaimedRecords(l, ids, worker, now, leaseFor) + [ClaimEntry(l.entries[id], worker, now, leaseFor).record]
  {
    hide ClaimEntry;
  }

  lemma NewRecordFacts(secret: string, id: string, tenantId: string, request: Request, digest: Digest,
                       contract: Contract, now: int)
    requires RequestHash(request.tool, request.arguments, contract.name, contract.version) == Ok(digest)
    ensures var record := NewRecord(secret, id, tenantId, request, digest, contract, now);
            && OperationOf(record) == (tenantId, request.operationKey)
            && NewEntry(record).record == record
            && EntryOk(secret, id, NewEntry(record))
  {
    NewEntryOk(secret, id, tenantId, request, digest, contract, now);
  }

  lemma InsertedFacts(t: Tables, id: string, record: Record)
    ensures InsertedTables(t, id, record).records == t.records[id := record]
  {
  }

  lemma DueInTables(t: Tables, id: string, now: int)
    requires t.Parallel() && id in t.records
    ensures Due(t.EntryAt(id), now) <==>
            Claimable(t.records[id].status) && (id !in t.leases || t.leases[id].expiresAt <= now)
    ensures t.EntryAt(id).record == t.records[id]
  {
  }

  lemma FirstDueEnds(l: Ledger, order: seq<string>, now: int, limit: int)
    requires order == [] || limit <= 0
    ensures FirstDue(l, order, now, limit) == []
  {
  }

  /** In the middle of a claim, an effect not yet claimed is as it was. */
  lemma NotYetClaimed(t: Tables, l: Ledger, ids: seq<string>, id: string, worker: string, now: int, leaseFor: int)
    requires t.Parallel() && t.Represents() == ClaimAll(l, ids, worker, now, leaseFor)
    requires id in l.entries && id !in ids
    ensures id in t.records && t.EntryAt(id) == l.entries[id]
  {
    hide ClaimEntry;
    assert id in t.Represents().entries;
  }

  lemma EntryInOrder(l: Ledger, order: seq<string>, i: nat)
    requires LedgerOk(l) && l.order == order && i < |order|
    ensures order[i] in l.entries && order[i] !in order[..i]
  {
    hide EntryOk, IdentityOk;
    assert order[i] in l.order;
  }
}
