/** What every store operation keeps: the event log is the state, and records only grow. */
module LedgerProofs {
  import opened Prelude
  import opened Identifiers
  import opened PyValues
  import opened Canonical
  import opened Identity
  import opened Models
  import opened StateMachine
  import opened Ledger

  // ---------------------------------------------------------------- the event log

  datatype Replayed = Replayed(status: Status, version: nat)

  /** Folds a log from its reservation; None when the log could not have been written. */
  function Replay(events: seq<Event>): Option<Replayed> {
    if events == [] then None
    else
      var event := events[|events| - 1];
      if |events| == 1 then
        if event.body == Reserved(Prepared) && event.version == 0 then Some(Replayed(Prepared, 0)) else None
      else
        match Replay(events[..|events| - 1])
        case None => None
        case Some(before) => ReplayOne(before, event)
  }

  function ReplayOne(before: Replayed, event: Event): Option<Replayed> {
    match event.body
    case Reserved(_) => None
    case Claimed(_, _) =>
      if Claimable(before.status) && event.version == before.version + 1
      then Some(Replayed(before.status, event.version)) else None
    case AttemptStarted(_, _, _) =>
      if event.version == before.version then Some(before) else None
    case Moved(from, to, _) =>
      if from == before.status && Allowed(from, to) && event.version == before.version + 1
      then Some(Replayed(to, event.version)) else None
  }

  /** The log rebuilds status and version, and its sequence numbers are 1, 2, 3 without a gap. */
  ghost predicate LogOk(e: Entry) {
    && (forall i :: 0 <= i < |e.events| ==> e.events[i].sequence == i + 1)
    && Replay(e.events) == Some(Replayed(e.record.status, e.record.version))
  }

  lemma ReplayAppended(events: seq<Event>, event: Event)
    requires Replay(events).Some?
    ensures Replay(events + [event]) == ReplayOne(Replay(events).value, event)
  {
    assert (events + [event])[..|events|] == events;
  }

  /** The events that advance the version. */
  function Advances(events: seq<Event>): nat {
    if events == [] then 0
    else
      var last := |events| - 1;
      Advances(events[..last]) + if events[last].body.Claimed? || events[last].body.Moved? then 1 else 0
  }

  /** The version is the number of claims and transitions the log holds. */
  lemma {:induction false} VersionCountsAdvances(events: seq<Event>)
    requires Replay(events).Some?
    ensures Replay(events).value.version == Advances(events)
  {
    if |events| == 1 {
      assert events[..0] == [];
    } else {
      VersionCountsAdvances(events[..|events| - 1]);
    }
  }

  /** Every version from 1 on was made by exactly one claim or transition, in order. */
  lemma {:induction false} EachVersionOnce(events: seq<Event>, i: nat, j: nat)
    requires Replay(events).Some?
    requires i < j < |events|
    ensures events[i].version <= events[j].version
    ensures events[j].body.Claimed? || events[j].body.Moved? ==> events[i].version < events[j].version
    ensures events[j].version <= Replay(events).value.version
  {
    var front := events[..|events| - 1];
    LogVersionsBounded(events, j);
    if j < |events| - 1 {
      EachVersionOnce(front, i, j);
    } else {
      LogVersionsBounded(front, i);
    }
  }

  lemma {:induction false} LogVersionsBounded(events: seq<Event>, i: nat)
    requires Replay(events).Some? && i < |events|
    ensures events[i].version <= Replay(events).value.version
  {
    if i == |events| - 1 {
    } else {
      LogVersionsBounded(events[..|events| - 1], i);
    }
  }

  /** The status an effect had before its event number i. */
  function StatusBefore(events: seq<Event>, i: nat): Status
    requires 0 < i <= |events| && Replay(events[..i]).Some?
  {
    Replay(events[..i]).value.status
  }

  /** The recorded edges form a path of the graph from Prepared: each starts where the last one ended. */
  lemma {:induction false} EdgesFormPath(events: seq<Event>, i: nat)
    requires Replay(events).Some? && 0 < i < |events|
    ensures Replay(events[..i]).Some?
    ensures events[i].body.Moved? ==>
              events[i].body.from == StatusBefore(events, i) && Allowed(events[i].body.from, events[i].body.to)
    ensures events[i].body.Claimed? ==> Claimable(StatusBefore(events, i))
    ensures !events[i].body.Reserved?
  {
    var front := events[..|events| - 1];
    if i < |events| - 1 {
      EdgesFormPath(front, i);
      assert front[..i] == events[..i];
    }
  }

  // ---------------------------------------------------------------- invariants

  ghost predicate AttemptsOk(id: string, e: Entry) {
    forall i :: 0 <= i < |e.attempts| ==>
      && e.attempts[i].effectId == id
      && e.attempts[i].ordinal == i + 1
      && e.attempts[i].attemptId == AttemptId(id, i + 1)
      && e.attempts[i].version <= e.record.version
  }

  ghost predicate EntryOk(secret: string, id: string, e: Entry) {
    && e.record.effectId == id
    && LogOk(e)
    && AttemptsOk(id, e)
    && (e.lease.Some? ==> Claimable(e.record.status))
    && e.record.downstreamKey == OperationKeyOf(secret, e.record.tenantId, e.record.request.operationKey)
    && Hashed(e.record)
  }

  /** The stored hash is the hash of the stored payload under the pinned contract version. */
  predicate Hashed(r: Record) {
    RequestHash(r.request.tool, r.request.arguments, r.contract.name, r.contract.version) == Ok(r.requestHash)
  }

  lemma HashedPinned(r: Record, r': Record)
    requires Hashed(r) && SamePinned(r, r')
    ensures Hashed(r')
  {
    hide RequestHash;
  }

  /** Whatever was reserved had arguments that canonicalisation accepts. */
  lemma StoredIsCanonical(l: Ledger, id: string)
    requires LedgerOk(l) && id in l.entries
    ensures Canonicalizable(l.entries[id].record.request.arguments)
  {
    hide RequestHash, LogOk, AttemptsOk, IdentityOk, OrderOk;
    EntryFacts(l, id);
    var r := l.entries[id].record;
    HashExists(r.request.tool, r.request.arguments, r.contract.name, r.contract.version);
  }

  function OperationOf(r: Record): (string, string) {
    (r.tenantId, r.request.operationKey)
  }

  ghost predicate IdentityOk(l: Ledger) {
    && (forall id :: id in l.entries ==>
          OperationOf(l.entries[id].record) in l.identity
          && l.identity[OperationOf(l.entries[id].record)] == id)
    && (forall o :: o in l.identity ==>
          l.identity[o] in l.entries && OperationOf(l.entries[l.identity[o]].record) == o)
  }

  ghost predicate OrderOk(l: Ledger) {
    && (forall id :: id in l.entries <==> id in l.order)
    && (forall i, j :: 0 <= i < j < |l.order| ==> l.order[i] != l.order[j])
  }

  ghost predicate LedgerOk(l: Ledger) {
    && (forall id :: id in l.entries ==> EntryOk(l.secret, id, l.entries[id]))
    && IdentityOk(l)
    && OrderOk(l)
  }

  /** Later states of an effect: pinned fields stay, the version determines record and lease, logs extend. */
  ghost predicate EntryGrows(e: Entry, e': Entry) {
    && SamePinned(e.record, e'.record)
    && e.record.version <= e'.record.version
    && (e.record.version == e'.record.version ==> e.record == e'.record && e.lease == e'.lease)
    && e.attempts <= e'.attempts
    && e.events <= e'.events
  }

  ghost predicate Grows(l: Ledger, l': Ledger) {
    && l.secret == l'.secret
    && forall id :: id in l.entries ==> id in l'.entries && EntryGrows(l.entries[id], l'.entries[id])
  }

  lemma GrowsTransitive(a: Ledger, b: Ledger, c: Ledger)
    requires Grows(a, b) && Grows(b, c)
    ensures Grows(a, c)
  {
  }

  /** Distinct effects have distinct downstream keys. */
  lemma DistinctEffectsDistinctKeys(l: Ledger, id: string, id': string)
    requires LedgerOk(l) && id in l.entries && id' in l.entries
    requires l.entries[id].record.downstreamKey == l.entries[id'].record.downstreamKey
    ensures id == id'
  {
    hide LogOk, AttemptsOk, OrderOk;
    var r, r' := l.entries[id].record, l.entries[id'].record;
    DistinctOperationsDistinctKeys(l.secret, r.tenantId, r.request.operationKey,
                                   r'.tenantId, r'.request.operationKey);
    assert OperationOf(r) == OperationOf(r');
  }

  // ---------------------------------------------------------------- operations on one effect

  lemma ClaimKeepsEntry(secret: string, id: string, e: Entry, worker: string, now: int, leaseFor: int)
    requires EntryOk(secret, id, e) && Due(e, now)
    ensures EntryOk(secret, id, ClaimEntry(e, worker, now, leaseFor))
    ensures EntryGrows(e, ClaimEntry(e, worker, now, leaseFor))
  {
    hide Hashed;
    var e' := ClaimEntry(e, worker, now, leaseFor);
    HashedPinned(e.record, e'.record);
    ReplayAppended(e.events, e'.events[|e.events|]);
  }

  lemma AttemptKeepsEntry(secret: string, id: string, e: Entry, worker: string, now: int)
    requires EntryOk(secret, id, e)
    ensures EntryOk(secret, id, AttemptEntry(e, worker, now))
    ensures EntryGrows(e, AttemptEntry(e, worker, now))
  {
    hide Hashed;
    var e' := AttemptEntry(e, worker, now);
    HashedPinned(e.record, e'.record);
    ReplayAppended(e.events, e'.events[|e.events|]);
  }

  lemma MoveKeepsEntry(secret: string, id: string, e: Entry, target: Status, data: Metadata, now: int)
    requires EntryOk(secret, id, e) && Allowed(e.record.status, target)
    ensures EntryOk(secret, id, MoveEntry(e, target, data, now))
    ensures EntryGrows(e, MoveEntry(e, target, data, now))
  {
    hide Hashed;
    var e' := MoveEntry(e, target, data, now);
    HashedPinned(e.record, e'.record);
    ReplayAppended(e.events, e'.events[|e.events|]);
  }

  // ---------------------------------------------------------------- operations on the ledger

  lemma EmptyLedgerOk(secret: string)
    ensures LedgerOk(EmptyLedger(secret))
  {
  }

  lemma EntryFacts(l: Ledger, id: string)
    requires LedgerOk(l) && id in l.entries
    ensures EntryOk(l.secret, id, l.entries[id])
    ensures l.entries[id].record.effectId == id
  {
  }

  lemma UnchangedGrows(l: Ledger)
    ensures Grows(l, l)
  {
  }

  /** Entries that only grow keep their places in the identity index and the order. */
  lemma SamePlaces(l: Ledger, l': Ledger)
    requires IdentityOk(l) && OrderOk(l)
    requires l'.entries.Keys == l.entries.Keys && l'.identity == l.identity && l'.order == l.order
    requires forall x :: x in l.entries ==> SamePinned(l.entries[x].record, l'.entries[x].record)
    ensures IdentityOk(l') && OrderOk(l')
  {
    assert forall x :: x in l.entries <==> x in l'.entries;
  }

  /** Replacing one entry by a later state of itself. */
  lemma UpdateKeepsLedger(l: Ledger, id: string, e: Entry)
    requires LedgerOk(l) && id in l.entries
    requires EntryOk(l.secret, id, e) && EntryGrows(l.entries[id], e)
    ensures LedgerOk(l.(entries := l.entries[id := e]))
    ensures Grows(l, l.(entries := l.entries[id := e]))
  {
    hide EntryOk;
    var l' := l.(entries := l.entries[id := e]);
    SamePlaces(l, l');
  }

  function Inserted(l: Ledger, id: string, e: Entry): Ledger {
    l.(entries := l.entries[id := e], identity := l.identity[OperationOf(e.record) := id], order := l.order + [id])
  }

  lemma InsertKeepsIdentity(l: Ledger, id: string, e: Entry)
    requires IdentityOk(l) && id !in l.entries && OperationOf(e.record) !in l.identity
    ensures IdentityOk(Inserted(l, id, e))
  {
    hide OperationOf;
    var l' := Inserted(l, id, e);
    forall o | o in l'.identity
      ensures l'.identity[o] in l'.entries && OperationOf(l'.entries[l'.identity[o]].record) == o
    {
      assert o != OperationOf(e.record) ==> o in l.identity;
    }
    forall x | x in l'.entries
      ensures OperationOf(l'.entries[x].record) in l'.identity
      ensures l'.identity[OperationOf(l'.entries[x].record)] == x
    {
      assert x != id ==> x in l.entries && OperationOf(l.entries[x].record) in l.identity;
    }
  }

  lemma InsertKeepsOrder(l: Ledger, id: string, e: Entry)
    requires OrderOk(l) && id !in l.entries
    ensures OrderOk(Inserted(l, id, e))
  {
    var l' := Inserted(l, id, e);
    assert id !in l.order;
    assert forall x :: x in l'.order <==> x in l.order || x == id;
  }

  /** Adding an entry for an operation not yet known. */
  lemma InsertKeepsLedger(l: Ledger, id: string, e: Entry)
    requires LedgerOk(l) && id !in l.entries && OperationOf(e.record) !in l.identity
    requires EntryOk(l.secret, id, e)
    ensures LedgerOk(Inserted(l, id, e)) && Grows(l, Inserted(l, id, e))
  {
    hide EntryOk, IdentityOk, OrderOk, OperationOf;
    InsertKeepsIdentity(l, id, e);
    InsertKeepsOrder(l, id, e);
    SameEntriesGrow(l, Inserted(l, id, e));
  }

  lemma SameEntriesGrow(l: Ledger, l': Ledger)
    requires l.secret == l'.secret
    requires forall x :: x in l.entries ==> x in l'.entries && l'.entries[x] == l.entries[x]
    ensures Grows(l, l')
  {
  }

  lemma ReserveKeepsLedger(l: Ledger, id: string, tenantId: string, request: Request, contract: Contract, now: int)
    requires LedgerOk(l) && id !in l.entries
    ensures var (l', r) := Reserve(l, id, tenantId, request, contract, now);
            LedgerOk(l') && Grows(l, l')
  {
    UnchangedGrows(l);
    hide EntryOk, RequestHash, OrderOk, OperationKeyOf, Grows;
    var (l', r) := Reserve(l, id, tenantId, request, contract, now);
    if r.Ok? && r.value.created {
      hide LedgerOk;
      NewEntryOk(l.secret, id, tenantId, request, r.value.effect.requestHash, contract, now);
      InsertKeepsLedger(l, id, NewEntry(r.value.effect));
    }
  }

  lemma NewEntryOk(secret: string, id: string, tenantId: string, request: Request, digest: Digest,
                   contract: Contract, now: int)
    requires RequestHash(request.tool, request.arguments, contract.name, contract.version) == Ok(digest)
    ensures EntryOk(secret, id, NewEntry(NewRecord(secret, id, tenantId, request, digest, contract, now)))
  {
    hide RequestHash;
  }

  lemma ClaimAllKeepsLedger(l: Ledger, ids: seq<string>, worker: string, now: int, leaseFor: int)
    requires LedgerOk(l)
    requires forall id :: id in ids ==> id in l.entries && Due(l.entries[id], now)
    ensures LedgerOk(ClaimAll(l, ids, worker, now, leaseFor))
    ensures Grows(l, ClaimAll(l, ids, worker, now, leaseFor))
  {
    hide EntryOk, ClaimEntry, Due;
    hide IdentityOk, OrderOk, Grows;
    var l' := ClaimAll(l, ids, worker, now, leaseFor);
    forall id | id in l.entries
      ensures EntryOk(l.secret, id, l'.entries[id]) && EntryGrows(l.entries[id], l'.entries[id])
    {
      if id in ids {
        ClaimKeepsEntry(l.secret, id, l.entries[id], worker, now, leaseFor);
      }
    }
    SamePlaces(l, l');
    AllEntriesGrow(l, l');
  }

  lemma AllEntriesGrow(l: Ledger, l': Ledger)
    requires l.secret == l'.secret && l.entries.Keys == l'.entries.Keys
    requires forall id :: id in l.entries ==> EntryGrows(l.entries[id], l'.entries[id])
    ensures Grows(l, l')
  {
    hide EntryGrows;
  }

  lemma StartAttemptKeepsLedger(l: Ledger, id: string, expected: nat, worker: string, now: int)
    requires LedgerOk(l)
    ensures LedgerOk(StartAttempt(l, id, expected, worker, now).0)
    ensures Grows(l, StartAttempt(l, id, expected, worker, now).0)
  {
    hide EntryOk, LedgerOk, Grows, EntryGrows, AttemptEntry;
    UnchangedGrows(l);
    if ForUpdate(l, id, expected).Ok? {
      EntryFacts(l, id);
      AttemptKeepsEntry(l.secret, id, l.entries[id], worker, now);
      UpdateKeepsLedger(l, id, AttemptEntry(l.entries[id], worker, now));
    }
  }

  lemma TransitionKeepsLedger(l: Ledger, id: string, expected: nat, target: Status, data: Metadata, now: int)
    requires LedgerOk(l)
    ensures LedgerOk(Transition(l, id, expected, target, data, now).0)
    ensures Grows(l, Transition(l, id, expected, target, data, now).0)
  {
    hide EntryOk, LedgerOk, Grows, EntryGrows, MoveEntry;
    UnchangedGrows(l);
    if Transition(l, id, expected, target, data, now).1.Ok? {
      EntryFacts(l, id);
      MoveKeepsEntry(l.secret, id, l.entries[id], target, data, now);
      UpdateKeepsLedger(l, id, MoveEntry(l.entries[id], target, data, now));
    }
  }

  /** A write fenced out once stays fenced out: its version never comes back. */
  lemma FencedForever(l: Ledger, l': Ledger, id: string, expected: nat, target: Status, data: Metadata, now: int)
    requires LedgerOk(l) && Grows(l, l') && id in l.entries
    requires expected < l.entries[id].record.version
    ensures Transition(l', id, expected, target, data, now) == (l', Err(VersionConflict(id)))
  {
    hide EntryOk, IdentityOk, OrderOk;
  }
}
