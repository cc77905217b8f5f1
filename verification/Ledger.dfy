/**
 * The ledger as a value: what each store operation does, stated once. The memory store, the
 * table stores and the concurrent protocol all refer to these functions.
 */
module Ledger {
  import opened Prelude
  import opened Json
  import opened PyValues
  import opened Identifiers
  import opened Identity
  import opened Models
  import opened StateMachine

  datatype Lease = Lease(workerId: string, expiresAt: int)

  datatype Attempt = Attempt(
    attemptId: string,
    effectId: string,
    ordinal: nat,
    workerId: string,
    version: nat,
    startedAt: int)

  datatype EventBody =
    | Reserved(status: Status)
    | Claimed(workerId: string, leaseExpiresAt: int)
    | AttemptStarted(attemptId: string, ordinal: nat, workerId: string)
    | Moved(from: Status, to: Status, metadata: Metadata)

  datatype Event = Event(sequence: nat, version: nat, at: int, body: EventBody)

  /** Everything the store keeps about one effect. */
  datatype Entry = Entry(
    record: Record,
    lease: Option<Lease>,
    attempts: seq<Attempt>,
    events: seq<Event>)

  /** The whole store; order is the insertion order of the records. */
  datatype Ledger = Ledger(
    secret: string,
    entries: map<string, Entry>,
    identity: map<(string, string), string>,
    order: seq<string>)

  function EmptyLedger(secret: string): Ledger {
    Ledger(secret, map[], map[], [])
  }

  // ---------------------------------------------------------------- one effect

  function Appended(events: seq<Event>, version: nat, at: int, body: EventBody): seq<Event> {
    events + [Event(|events| + 1, version, at, body)]
  }

  function NewRecord(secret: string, id: string, tenantId: string, request: Request, digest: Digest,
                     contract: Contract, now: int): Record
  {
    Record(id, tenantId, request, digest, OperationKeyOf(secret, tenantId, request.operationKey),
           contract, Prepared, 0, now, now)
  }

  function NewEntry(record: Record): Entry {
    Entry(record, None, [], Appended([], record.version, record.createdAt, Reserved(record.status)))
  }

  /** A worker may claim: the effect awaits dispatch and no lease is still running. */
  predicate Due(e: Entry, now: int) {
    Claimable(e.record.status) && (e.lease.Some? ==> e.lease.value.expiresAt <= now)
  }

  function ClaimEntry(e: Entry, worker: string, now: int, leaseFor: int): Entry {
    var record := e.record.(version := e.record.version + 1, updatedAt := now);
    e.(record := record,
       lease := Some(Lease(worker, now + leaseFor)),
       events := Appended(e.events, record.version, now, Claimed(worker, now + leaseFor)))
  }

  function AttemptEntry(e: Entry, worker: string, now: int): Entry {
    var ordinal := |e.attempts| + 1;
    var attemptId := AttemptId(e.record.effectId, ordinal);
    e.(attempts := e.attempts + [Attempt(attemptId, e.record.effectId, ordinal, worker, e.record.version, now)],
       events := Appended(e.events, e.record.version, now, AttemptStarted(attemptId, ordinal, worker)))
  }

  function MoveEntry(e: Entry, target: Status, data: Metadata, now: int): Entry {
    var record := e.record.(status := target, version := e.record.version + 1, updatedAt := now);
    e.(record := record,
       lease := if Claimable(target) then e.lease else None,
       events := Appended(e.events, record.version, now, Moved(e.record.status, target, data)))
  }

  /** The fenced lookup every update starts with. */
  function ForUpdate(l: Ledger, id: string, expected: nat): (r: Result<Entry, StoreError>)
    ensures r.Ok? <==> id in l.entries && l.entries[id].record.version == expected
    ensures r.Ok? ==> r.value == l.entries[id]
  {
    if id !in l.entries then Err(UnknownEffect(id))
    else if l.entries[id].record.version != expected then Err(VersionConflict(id))
    else Ok(l.entries[id])
  }

  // ---------------------------------------------------------------- store operations

  function Reserve(l: Ledger, id: string, tenantId: string, request: Request, contract: Contract, now: int)
    : (r: (Ledger, Result<Reservation, StoreError>))
  {
    match RequestHash(request.tool, request.arguments, contract.name, contract.version)
    case Err(reason) => (l, Err(NotCanonical(reason)))
    case Ok(digest) =>
      var operation := (tenantId, request.operationKey);
      if operation in l.identity && l.identity[operation] in l.entries then
        var existing := l.entries[l.identity[operation]].record;
        if existing.requestHash != digest then
          (l, Err(PayloadConflict(request.operationKey, existing.requestHash, digest)))
        else (l, Ok(Reservation(existing, false, true)))
      else
        var record := NewRecord(l.secret, id, tenantId, request, digest, contract, now);
        (l.(entries := l.entries[id := NewEntry(record)],
            identity := l.identity[operation := id],
            order := l.order + [id]),
         Ok(Reservation(record, true, false)))
  }

  /** The first effects due, in insertion order, at most limit of them. */
  function FirstDue(l: Ledger, order: seq<string>, now: int, limit: int): (ids: seq<string>)
    ensures forall id :: id in ids ==> id in order && id in l.entries && Due(l.entries[id], now)
    ensures limit >= 0 ==> |ids| <= limit
  {
    if order == [] || limit <= 0 then []
    else if order[0] in l.entries && Due(l.entries[order[0]], now) then
      [order[0]] + FirstDue(l, order[1..], now, limit - 1)
    else FirstDue(l, order[1..], now, limit)
  }

  /** Claims a batch of effects at one instant. */
  function ClaimAll(l: Ledger, ids: seq<string>, worker: string, now: int, leaseFor: int): Ledger {
    l.(entries := map id | id in l.entries ::
                    if id in ids then ClaimEntry(l.entries[id], worker, now, leaseFor) else l.entries[id])
  }

  /** The records a claim hands out. */
  function ClaimedRecords(l: Ledger, ids: seq<string>, worker: string, now: int, leaseFor: int): (rs: seq<Record>)
    requires forall id :: id in ids ==> id in l.entries
    ensures |rs| == |ids|
  {
    seq(|ids|, i requires 0 <= i < |ids| => ClaimEntry(l.entries[ids[i]], worker, now, leaseFor).record)
  }

  function StartAttempt(l: Ledger, id: string, expected: nat, worker: string, now: int)
    : (r: (Ledger, Result<string, StoreError>))
  {
    match ForUpdate(l, id, expected)
    case Err(error) => (l, Err(error))
    case Ok(e) =>
      (l.(entries := l.entries[id := AttemptEntry(e, worker, now)]),
       Ok(AttemptId(e.record.effectId, |e.attempts| + 1)))
  }

  function Transition(l: Ledger, id: string, expected: nat, target: Status, data: Metadata, now: int)
    : (r: (Ledger, Result<Record, StoreError>))
  {
    match ForUpdate(l, id, expected)
    case Err(error) => (l, Err(error))
    case Ok(e) =>
      if !Allowed(e.record.status, target) then (l, Err(InvalidTransition(e.record.status, target)))
      else
        var moved := MoveEntry(e, target, data, now);
        (l.(entries := l.entries[id := moved]), Ok(moved.record))
  }

  function Get(l: Ledger, tenantId: string, id: string): Option<Record> {
    if id in l.entries && l.entries[id].record.tenantId == tenantId
    then Some(l.entries[id].record)
    else None
  }

  // ---------------------------------------------------------------- receipts

  datatype Receipt = Receipt(
    effectId: string,
    contractName: string,
    contractVersion: string,
    downstreamKey: DownstreamKey,
    metadata: Metadata,
    recordedAt: int)

  predicate IsSuccess(e: Event) {
    e.body.Moved? && e.body.to == Succeeded
  }

  /** The last success in an event stream, scanning backwards. */
  function LastSuccess(events: seq<Event>): (r: Option<Event>)
    ensures r.None? <==> forall i :: 0 <= i < |events| ==> !IsSuccess(events[i])
    ensures r.Some? ==> r.value in events && IsSuccess(r.value)
  {
    if events == [] then None
    else
      var last := |events| - 1;
      assert events == events[..last] + [events[last]];
      if IsSuccess(events[last]) then Some(events[last]) else LastSuccess(events[..last])
  }

  function ReceiptOf(record: Record, data: Metadata, at: int): Receipt {
    Receipt(record.effectId, record.contract.name, record.contract.version, record.downstreamKey, data, at)
  }

  function EntryReceipt(e: Entry): Option<Receipt> {
    match LastSuccess(e.events)
    case None => None
    case Some(event) => Some(ReceiptOf(e.record, event.body.metadata, event.at))
  }

  function ReceiptFor(l: Ledger, tenantId: string, id: string): Option<Receipt> {
    if Get(l, tenantId, id).None? then None else EntryReceipt(l.entries[id])
  }
}
