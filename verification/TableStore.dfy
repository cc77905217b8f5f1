/**
 * The table stores (src/effect_broker/store/sqlite.py, postgres.py): global tables of effects, attempts,
 * events and receipts, updated in place. Leases are cleared by every transition, sequence numbers are
 * computed by COUNT or MAX, receipts are rows of their own. Each method is nevertheless proved to do to
 * the represented ledger exactly what the in-memory store does.
 */
module TableStore {
  import opened Prelude
  import opened Identifiers
  import opened Identity
  import opened Models
  import opened StateMachine
  import opened Ledger
  import Spec = Ledger
  import opened LedgerProofs
  import opened StoreContracts
  import MemoryStore
  import TextOrder

  datatype Dialect = Sqlite | Postgres

  datatype EffectRow = EffectRow(record: Record, lease: Option<Lease>)

  datatype EventRow = EventRow(effectId: string, event: Event)

  /** The attempt rows of one effect, in insertion order. */
  function AttemptsOf(rows: seq<Attempt>, id: string): seq<Attempt> {
    if rows == [] then []
    else
      var last := |rows| - 1;
      AttemptsOf(rows[..last], id) + if rows[last].effectId == id then [rows[last]] else []
  }

  function EventsOf(rows: seq<EventRow>, id: string): seq<Event> {
    if rows == [] then []
    else
      var last := |rows| - 1;
      EventsOf(rows[..last], id) + if rows[last].effectId == id then [rows[last].event] else []
  }

  /** index lists the primary keys by created_at, then effect_id. */
  datatype Database = Database(
    dialect: Dialect,
    secret: string,
    effects: map<string, EffectRow>,
    unique: map<(string, string), string>,
    index: seq<string>,
    attempts: seq<Attempt>,
    events: seq<EventRow>,
    receipts: map<string, Receipt>)
  {
    function EntryAt(id: string): Entry
      requires id in effects
    {
      Entry(effects[id].record, effects[id].lease, AttemptsOf(attempts, id), EventsOf(events, id))
    }

    function View(): Ledger {
      Ledger(secret, map id | id in effects :: EntryAt(id), unique, index)
    }

    /** No attempt or event row without its effect. */
    ghost predicate ForeignKeys() {
      && (forall i :: 0 <= i < |attempts| ==> attempts[i].effectId in effects)
      && (forall i :: 0 <= i < |events| ==> events[i].effectId in effects)
    }

    function ReceiptRow(id: string): Option<Receipt> {
      if id in receipts then Some(receipts[id]) else None
    }

    /** Postgres keeps a receipt row per success, saying what a scan of the log would say. */
    ghost predicate ReceiptsOk() {
      dialect.Postgres? ==> forall id :: id in effects ==> ReceiptRow(id) == EntryReceipt(EntryAt(id))
    }

    ghost predicate DatabaseOk() {
      LedgerOk(View()) && ForeignKeys() && ReceiptsOk()
    }
  }

  lemma AttemptsAppended(rows: seq<Attempt>, row: Attempt, id: string)
    ensures AttemptsOf(rows + [row], id) == AttemptsOf(rows, id) + if row.effectId == id then [row] else []
  {
    assert (rows + [row])[..|rows|] == rows;
  }

  lemma EventsAppended(rows: seq<EventRow>, row: EventRow, id: string)
    ensures EventsOf(rows + [row], id) == EventsOf(rows, id) + if row.effectId == id then [row.event] else []
  {
    assert (rows + [row])[..|rows|] == rows;
  }

  lemma {:induction false} NoAttempts(rows: seq<Attempt>, id: string)
    requires forall i :: 0 <= i < |rows| ==> rows[i].effectId != id
    ensures AttemptsOf(rows, id) == []
  {
    if rows == [] {
    } else {
      NoAttempts(rows[..|rows| - 1], id);
    }
  }

  lemma {:induction false} NoEvents(rows: seq<EventRow>, id: string)
    requires forall i :: 0 <= i < |rows| ==> rows[i].effectId != id
    ensures EventsOf(rows, id) == []
  {
    if rows == [] {
    } else {
      NoEvents(rows[..|rows| - 1], id);
    }
  }

  // ---------------------------------------------------------------- the ORDER BY index

  /** created_at first, effect_id second. */
  predicate Earlier(a: Record, b: Record) {
    a.createdAt < b.createdAt || (a.createdAt == b.createdAt && TextOrder.Below(a.effectId, b.effectId))
  }

  /** Where a new row goes. */
  function Placed(effects: map<string, EffectRow>, index: seq<string>, record: Record): (r: seq<string>)
    ensures forall x :: x in r <==> x == record.effectId || x in index
    ensures |r| == |index| + 1
  {
    if index == [] then [record.effectId]
    else
      assert index == [index[0]] + index[1..];
      if index[0] in effects && Earlier(effects[index[0]].record, record) then
        [index[0]] + Placed(effects, index[1..], record)
      else [record.effectId] + index
  }

  /** A row created after all others is listed last: the order of the in-memory store. */
  lemma {:induction false} PlacedLast(effects: map<string, EffectRow>, index: seq<string>, record: Record)
    requires forall i :: 0 <= i < |index| ==> index[i] in effects && Earlier(effects[index[i]].record, record)
    ensures Placed(effects, index, record) == index + [record.effectId]
  {
    if index == [] {
    } else {
      assert index[0] in effects && Earlier(effects[index[0]].record, record);
      PlacedLast(effects, index[1..], record);
      assert index == [index[0]] + index[1..];
    }
  }

  /** A row is listed last exactly when it is later than all others. */
  lemma {:induction false} PlacedLastIff(effects: map<string, EffectRow>, index: seq<string>, record: Record)
    requires (forall i :: 0 <= i < |index| ==> index[i] in effects) && record.effectId !in index
    ensures Placed(effects, index, record) == index + [record.effectId] <==>
            forall i :: 0 <= i < |index| ==> Earlier(effects[index[i]].record, record)
  {
    if index == [] {
    } else if Earlier(effects[index[0]].record, record) {
      PlacedLastIff(effects, index[1..], record);
      var rest := Placed(effects, index[1..], record);
      assert index == [index[0]] + index[1..];
      assert ([index[0]] + rest)[1..] == rest && (index + [record.effectId])[1..] == index[1..] + [record.effectId];
      if forall i :: 0 <= i < |index[1..]| ==> Earlier(effects[index[1..][i]].record, record) {
        forall i | 0 <= i < |index|
          ensures Earlier(effects[index[i]].record, record)
        {
          assert i > 0 ==> index[i] == index[1..][i - 1];
        }
      }
    } else {
      assert Placed(effects, index, record)[0] == record.effectId && (index + [record.effectId])[0] == index[0];
      assert index[0] in index;
    }
  }

  /** The index really is in ORDER BY order. */
  ghost predicate InOrder(effects: map<string, EffectRow>, index: seq<string>) {
    && (forall i :: 0 <= i < |index| ==> index[i] in effects && effects[index[i]].record.effectId == index[i])
    && (forall i, j :: 0 <= i < j < |index| ==> Earlier(effects[index[i]].record, effects[index[j]].record))
  }

  lemma EarlierTransitive(a: Record, b: Record, c: Record)
    requires Earlier(a, b) && Earlier(b, c)
    ensures Earlier(a, c)
  {
    if a.createdAt == b.createdAt == c.createdAt {
      TextOrder.BelowTransitive(a.effectId, b.effectId, c.effectId);
    }
  }

  lemma EarlierTotal(a: Record, b: Record)
    requires a.effectId != b.effectId
    ensures Earlier(a, b) || Earlier(b, a)
  {
    TextOrder.BelowTotal(a.effectId, b.effectId);
  }

  lemma PrependInOrder(effects: map<string, EffectRow>, id: string, rest: seq<string>)
    requires InOrder(effects, rest) && id in effects && effects[id].record.effectId == id
    requires rest == [] || Earlier(effects[id].record, effects[rest[0]].record)
    ensures InOrder(effects, [id] + rest)
  {
    hide Earlier;
    var all := [id] + rest;
    forall j | 0 < j < |all|
      ensures Earlier(effects[id].record, effects[all[j]].record)
    {
      if j > 1 {
        assert Earlier(effects[rest[0]].record, effects[rest[j - 1]].record);
        EarlierTransitive(effects[id].record, effects[rest[0]].record, effects[rest[j - 1]].record);
      }
    }
  }

  /** A new row keeps the index in order wherever it belongs. */
  lemma {:induction false} PlacedInOrder(effects: map<string, EffectRow>, effects': map<string, EffectRow>, index: seq<string>, record: Record)
    requires InOrder(effects, index) && record.effectId !in index
    requires record.effectId in effects' && effects'[record.effectId].record == record
    requires forall x :: x in index ==> x in effects' && effects'[x] == effects[x]
    ensures InOrder(effects', Placed(effects, index, record))
    ensures index != [] && Placed(effects, index, record)[0] != record.effectId ==> Placed(effects, index, record)[0] == index[0]
  {
    hide Earlier;
    if index == [] {
    } else if Earlier(effects[index[0]].record, record) {
      var rest := Placed(effects, index[1..], record);
      assert index == [index[0]] + index[1..];
      PlacedInOrder(effects, effects', index[1..], record);
      assert index[1..] != [] ==> Earlier(effects[index[0]].record, effects[index[1..][0]].record);
      PrependInOrder(effects', index[0], rest);
    } else {
      assert index[0] in index;
      EarlierTotal(record, effects[index[0]].record);
      SameInOrder(effects, effects', index);
      PrependInOrder(effects', record.effectId, index);
    }
  }

  lemma SameInOrder(effects: map<string, EffectRow>, effects': map<string, EffectRow>, index: seq<string>)
    requires InOrder(effects, index)
    requires forall x :: x in index ==> x in effects' && SamePinned(effects[x].record, effects'[x].record)
    ensures InOrder(effects', index)
  {
    forall i | 0 <= i < |index|
      ensures index[i] in effects' && SamePinned(effects[index[i]].record, effects'[index[i]].record)
    {
      assert index[i] in index;
    }
  }

  lemma {:induction false} PlacedDistinct(effects: map<string, EffectRow>, index: seq<string>, record: Record)
    requires NoRepeats(index) && record.effectId !in index
    ensures NoRepeats(Placed(effects, index, record))
  {
    var r := Placed(effects, index, record);
    if index == [] {
    } else if index[0] in effects && Earlier(effects[index[0]].record, record) {
      PlacedDistinct(effects, index[1..], record);
      var rest := Placed(effects, index[1..], record);
      assert r == [index[0]] + rest;
      assert index[0] !in index[1..] && index[0] != record.effectId;
      forall i, j | 0 <= i < j < |r|
        ensures r[i] != r[j]
      {
        assert r[j] == rest[j - 1] && rest[j - 1] in rest;
      }
    } else {
      assert r == [record.effectId] + index;
    }
  }

  // ---------------------------------------------------------------- rows and entries

  /** Changing the rows of one effect changes one entry. */
  lemma OneRow(db: Database, db': Database, id: string)
    requires db'.secret == db.secret && id in db'.effects && db'.effects.Keys == db.effects.Keys + {id}
    requires forall x :: x in db.effects && x != id ==> db'.EntryAt(x) == db.EntryAt(x)
    ensures db'.View().entries == db.View().entries[id := db'.EntryAt(id)]
  {
    hide Database.EntryAt;
    var got, want := db'.View().entries, db.View().entries[id := db'.EntryAt(id)];
    assert got.Keys == db'.effects.Keys && want.Keys == db.effects.Keys + {id};
    forall x | x in got
      ensures x in want && got[x] == want[x]
    {
    }
    assert got == want;
  }

  lemma ViewFacts(db: Database)
    ensures db.View().secret == db.secret && db.View().identity == db.unique && db.View().order == db.index
    ensures db.View().entries.Keys == db.effects.Keys
    ensures forall id :: id in db.effects ==> db.View().entries[id] == db.EntryAt(id)
  {
  }

  lemma EntryOfRow(db: Database, id: string)
    requires LedgerOk(db.View()) && id in db.effects
    ensures EntryOk(db.secret, id, db.EntryAt(id)) && db.effects[id].record.effectId == id
  {
    hide EntryOk, Database.EntryAt;
    ViewFacts(db);
    EntryFacts(db.View(), id);
    RowRecord(db, id);
  }

  lemma RowRecord(db: Database, id: string)
    requires id in db.effects
    ensures db.EntryAt(id).record == db.effects[id].record && db.EntryAt(id).lease == db.effects[id].lease
    ensures db.EntryAt(id).attempts == AttemptsOf(db.attempts, id) && db.EntryAt(id).events == EventsOf(db.events, id)
  {
  }

  // ---------------------------------------------------------------- sequence numbers and receipts

  /** The largest sequence number of an effect, 0 when it has none. */
  function MaxSequence(rows: seq<EventRow>, id: string): nat {
    if rows == [] then 0
    else
      var last, before := |rows| - 1, MaxSequence(rows[..|rows| - 1], id);
      if rows[last].effectId == id && rows[last].event.sequence > before then rows[last].event.sequence else before
  }

  /** With sequences 1, 2, 3 and no gap, MAX and COUNT are the same number. */
  lemma {:induction false} MaxIsCount(rows: seq<EventRow>, id: string)
    requires forall i :: 0 <= i < |EventsOf(rows, id)| ==> EventsOf(rows, id)[i].sequence == i + 1
    ensures MaxSequence(rows, id) == |EventsOf(rows, id)|
  {
    if rows == [] {
    } else {
      var last := |rows| - 1;
      var events, before := EventsOf(rows, id), EventsOf(rows[..last], id);
      assert before <= events;
      assert forall i :: 0 <= i < |before| ==> before[i] == events[i];
      MaxIsCount(rows[..last], id);
      if rows[last].effectId == id {
        assert events[|events| - 1] == rows[last].event;
      }
    }
  }

  /** A receipt row can always be inserted: there is none before the one success. */
  lemma NoReceiptBefore(secret: string, id: string, e: Entry)
    requires EntryOk(secret, id, e) && e.record.status != Succeeded
    ensures EntryReceipt(e) == None
  {
    SuccessOnlyIfSucceeded(e.events);
  }

  /** What each operation does to the receipt of its effect. */
  lemma ReceiptAppended(e: Entry, e': Entry, event: Event)
    requires e'.events == e.events + [event] && SamePinned(e.record, e'.record)
    ensures EntryReceipt(e') == if IsSuccess(event) then Some(ReceiptOf(e'.record, event.body.metadata, event.at)) else EntryReceipt(e)
  {
    assert e'.events[..|e.events|] == e.events;
  }

  /** No edge leads from a waiting status to a waiting status, so a moved effect never keeps a lease. */
  lemma LeaseAlwaysCleared(secret: string, id: string, e: Entry, target: Status, data: Metadata, now: int)
    requires EntryOk(secret, id, e) && Allowed(e.record.status, target)
    ensures MoveEntry(e, target, data, now).lease == None
  {
    hide LogOk, AttemptsOk;
  }

  // ---------------------------------------------------------------- statements on the tables

  function WithEvent(db: Database, id: string, version: nat, at: int, body: EventBody): Database {
    db.(events := db.events + [EventRow(id, Event(|EventsOf(db.events, id)| + 1, version, at, body))])
  }

  function ClaimedRow(db: Database, id: string, worker: string, now: int, leaseFor: int): Database
    requires id in db.effects
  {
    var record := db.effects[id].record;
    var updated := record.(version := record.version + 1, updatedAt := now);
    WithEvent(db.(effects := db.effects[id := EffectRow(updated, Some(Lease(worker, now + leaseFor)))]),
              id, updated.version, now, Claimed(worker, now + leaseFor))
  }

  function AttemptedRow(db: Database, id: string, worker: string, now: int): Database
    requires id in db.effects
  {
    var ordinal := |AttemptsOf(db.attempts, id)| + 1;
    var attemptId := AttemptId(id, ordinal);
    WithEvent(db.(attempts := db.attempts + [Attempt(attemptId, id, ordinal, worker, db.effects[id].record.version, now)]),
              id, db.effects[id].record.version, now, AttemptStarted(attemptId, ordinal, worker))
  }

  function MovedRow(db: Database, id: string, target: Status, data: Metadata, now: int): Database
    requires id in db.effects
  {
    var record := db.effects[id].record;
    var updated := record.(status := target, version := record.version + 1, updatedAt := now);
    var moved := WithEvent(db.(effects := db.effects[id := EffectRow(updated, None)]),
                           id, updated.version, now, Moved(record.status, target, data));
    if db.dialect.Postgres? && target == Succeeded then
      moved.(receipts := moved.receipts[id := ReceiptOf(updated, data, now)])
    else moved
  }

  function InsertedRow(db: Database, id: string, record: Record): Database {
    WithEvent(db.(effects := db.effects[id := EffectRow(record, None)],
                  unique := db.unique[OperationOf(record) := id],
                  index := Placed(db.effects, db.index, record)),
              id, record.version, record.createdAt, Reserved(record.status))
  }

  // ---------------------------------------------------------------- statements refine the ledger

  /** One effect's rows after a statement, with everything else as it was. */
  ghost predicate Touched(db: Database, db': Database, id: string, e: Entry) {
    && db'.dialect == db.dialect && db'.secret == db.secret
    && id in db'.effects && db'.effects.Keys == db.effects.Keys + {id}
    && db'.EntryAt(id) == e
    && (forall x :: x in db.effects && x != id ==> db'.EntryAt(x) == db.EntryAt(x))
    && (forall x :: x != id ==> db'.ReceiptRow(x) == db.ReceiptRow(x))
  }

  lemma TouchedView(db: Database, db': Database, id: string, e: Entry)
    requires Touched(db, db', id, e) && db'.unique == db.unique && db'.index == db.index && id in db.effects
    ensures db'.View() == db.View().(entries := db.View().entries[id := e])
  {
    hide Database.View, Database.EntryAt;
    OneRow(db, db', id);
    ViewFacts(db);
    ViewFacts(db');
  }

  lemma TouchedReceipts(db: Database, db': Database, id: string, e: Entry)
    requires db.ReceiptsOk() && Touched(db, db', id, e)
    requires db.dialect.Postgres? ==> db'.ReceiptRow(id) == EntryReceipt(e)
    ensures db'.ReceiptsOk()
  {
    hide Database.EntryAt, Database.ReceiptRow, EntryReceipt;
    if db.dialect.Postgres? {
      forall x | x in db'.effects
        ensures db'.ReceiptRow(x) == EntryReceipt(db'.EntryAt(x))
      {
        assert x == id || x in db.effects;
      }
    }
  }

  lemma OthersEvents(db: Database, id: string, version: nat, at: int, body: EventBody)
    ensures forall x :: x != id ==> EventsOf(WithEvent(db, id, version, at, body).events, x) == EventsOf(db.events, x)
    ensures EventsOf(WithEvent(db, id, version, at, body).events, id) == Appended(EventsOf(db.events, id), version, at, body)
  {
    hide EventsOf;
    var row := EventRow(id, Event(|EventsOf(db.events, id)| + 1, version, at, body));
    forall x
      ensures EventsOf(db.events + [row], x) == EventsOf(db.events, x) + if row.effectId == x then [row.event] else []
    {
      EventsAppended(db.events, row, x);
    }
  }

  lemma ClaimTouches(db: Database, id: string, worker: string, now: int, leaseFor: int)
    requires id in db.effects
    ensures Touched(db, ClaimedRow(db, id, worker, now, leaseFor), id, ClaimEntry(db.EntryAt(id), worker, now, leaseFor))
  {
    hide EventsOf, AttemptsOf, Appended;
    var record := db.effects[id].record;
    var updated := record.(version := record.version + 1, updatedAt := now);
    OthersEvents(db.(effects := db.effects[id := EffectRow(updated, Some(Lease(worker, now + leaseFor)))]),
                 id, updated.version, now, Claimed(worker, now + leaseFor));
  }

  lemma AttemptTouches(db: Database, id: string, worker: string, now: int)
    requires id in db.effects && db.effects[id].record.effectId == id
    ensures Touched(db, AttemptedRow(db, id, worker, now), id, AttemptEntry(db.EntryAt(id), worker, now))
  {
    hide EventsOf, AttemptsOf, Appended, AttemptId;
    var ordinal := |AttemptsOf(db.attempts, id)| + 1;
    var attemptId := AttemptId(id, ordinal);
    var row := Attempt(attemptId, id, ordinal, worker, db.effects[id].record.version, now);
    OthersEvents(db.(attempts := db.attempts + [row]), id, db.effects[id].record.version, now, AttemptStarted(attemptId, ordinal, worker));
    forall x
      ensures AttemptsOf(db.attempts + [row], x) == AttemptsOf(db.attempts, x) + if id == x then [row] else []
    {
      AttemptsAppended(db.attempts, row, x);
    }
  }

  /** Clearing the lease unconditionally is what clearing it conditionally would have done. */
  lemma MoveTouches(db: Database, id: string, target: Status, data: Metadata, now: int)
    requires id in db.effects && MoveEntry(db.EntryAt(id), target, data, now).lease == None
    ensures Touched(db, MovedRow(db, id, target, data, now), id, MoveEntry(db.EntryAt(id), target, data, now))
  {
    hide EventsOf, AttemptsOf, Appended;
    var record := db.effects[id].record;
    var updated := record.(status := target, version := record.version + 1, updatedAt := now);
    OthersEvents(db.(effects := db.effects[id := EffectRow(updated, None)]),
                 id, updated.version, now, Moved(record.status, target, data));
  }

  lemma ForeignKeysKept(db: Database, db': Database, id: string)
    requires db.ForeignKeys() && db'.effects.Keys == db.effects.Keys + {id}
    requires forall i :: 0 <= i < |db'.attempts| ==> db'.attempts[i] in db.attempts || db'.attempts[i].effectId == id
    requires forall i :: 0 <= i < |db'.events| ==> db'.events[i] in db.events || db'.events[i].effectId == id
    ensures db'.ForeignKeys()
  {
  }

  lemma MoveRefines(db: Database, id: string, target: Status, data: Metadata, now: int)
    requires db.DatabaseOk() && id in db.effects && Allowed(db.effects[id].record.status, target)
    ensures var db' := MovedRow(db, id, target, data, now);
            && db'.DatabaseOk()
            && db'.View() == db.View().(entries := db.View().entries[id := MoveEntry(db.EntryAt(id), target, data, now)])
  {
    hide LedgerOk, EntryOk, Database.View, EventsOf, AttemptsOf, MoveEntry, EntryReceipt, Touched, Appended;
    var db', e := MovedRow(db, id, target, data, now), db.EntryAt(id);
    EntryOfRow(db, id);
    ViewFacts(db);
    LeaseAlwaysCleared(db.secret, id, e, target, data, now);
    MoveTouches(db, id, target, data, now);
    TouchedView(db, db', id, MoveEntry(e, target, data, now));
    MoveReceipt(db, id, target, data, now);
    TouchedReceipts(db, db', id, MoveEntry(e, target, data, now));
    ForeignKeysKept(db, db', id);
    MoveKeepsEntry(db.secret, id, e, target, data, now);
    UpdateKeepsLedger(db.View(), id, MoveEntry(e, target, data, now));
  }

  lemma MoveReceipt(db: Database, id: string, target: Status, data: Metadata, now: int)
    requires db.DatabaseOk() && id in db.effects && Allowed(db.effects[id].record.status, target)
    ensures db.dialect.Postgres? ==>
              MovedRow(db, id, target, data, now).ReceiptRow(id) == EntryReceipt(MoveEntry(db.EntryAt(id), target, data, now))
    ensures db.dialect.Postgres? && target == Succeeded ==> id !in db.receipts
  {
    hide LedgerOk, EntryOk, EventsOf, AttemptsOf, LastSuccess;
    EntryOfRow(db, id);
    var e := db.EntryAt(id);
    var e' := MoveEntry(e, target, data, now);
    ReceiptAppended(e, e', e'.events[|e.events|]);
    NoReceiptBefore(db.secret, id, e);
  }

  lemma QuietReceipt(e: Entry, e': Entry, event: Event)
    requires e'.events == e.events + [event] && SamePinned(e.record, e'.record) && !IsSuccess(event)
    ensures EntryReceipt(e') == EntryReceipt(e)
  {
    ReceiptAppended(e, e', event);
  }

  lemma AttemptRefines(db: Database, id: string, worker: string, now: int)
    requires db.DatabaseOk() && id in db.effects
    ensures var db' := AttemptedRow(db, id, worker, now);
            && db'.DatabaseOk()
            && db'.View() == db.View().(entries := db.View().entries[id := AttemptEntry(db.EntryAt(id), worker, now)])
  {
    hide LedgerOk, EntryOk, Database.View, EventsOf, AttemptsOf, EntryReceipt, Touched, AttemptId;
    var db', e := AttemptedRow(db, id, worker, now), db.EntryAt(id);
    EntryOfRow(db, id);
    ViewFacts(db);
    AttemptTouches(db, id, worker, now);
    var e' := AttemptEntry(e, worker, now);
    TouchedView(db, db', id, e');
    QuietReceipt(e, e', e'.events[|e.events|]);
    TouchedReceipts(db, db', id, e');
    ForeignKeysKept(db, db', id);
    AttemptKeepsEntry(db.secret, id, e, worker, now);
    UpdateKeepsLedger(db.View(), id, e');
  }

  lemma InsertTouches(db: Database, id: string, record: Record)
    requires db.ForeignKeys() && id !in db.effects
    ensures Touched(db, InsertedRow(db, id, record), id, NewEntry(record))
  {
    hide Placed, Appended, EventsOf, AttemptsOf;
    NoAttempts(db.attempts, id);
    NoEvents(db.events, id);
    OthersEvents(db.(effects := db.effects[id := EffectRow(record, None)], unique := db.unique[OperationOf(record) := id],
                     index := Placed(db.effects, db.index, record)),
                 id, record.version, record.createdAt, Reserved(record.status));
  }

  /** The view of an insertion: the in-memory insertion, listed at the row's place. */
  lemma InsertRefines(db: Database, id: string, record: Record)
    requires db.DatabaseOk() && id !in db.effects && OperationOf(record) !in db.unique
    requires record.effectId == id && EntryOk(db.secret, id, NewEntry(record)) && id !in db.receipts
    ensures var db' := InsertedRow(db, id, record);
            && db'.DatabaseOk()
            && db'.View() == Inserted(db.View(), id, NewEntry(record)).(order := Placed(db.effects, db.index, record))
  {
    hide LedgerOk, EntryOk, Database.View, EventsOf, AttemptsOf, EntryReceipt, Touched, Placed, NewEntry;
    var db', e := InsertedRow(db, id, record), NewEntry(record);
    ViewFacts(db);
    ViewFacts(db');
    InsertTouches(db, id, record);
    TouchedFacts(db, db', id, e);
    OneRow(db, db', id);
    NewReceipt(record);
    TouchedReceipts(db, db', id, e);
    ForeignKeysKept(db, db', id);
    InsertKeepsLedger(db.View(), id, e);
    PlacedOk(db, id, record);
    var placed := Placed(db.effects, db.index, record);
    assert db'.View().order == placed && Inserted(db.View(), id, e).order == db.index + [id];
    assert db'.View() == Inserted(db.View(), id, e).(order := placed);
    Reordered(Inserted(db.View(), id, e), db'.View());
  }

  lemma TouchedFacts(db: Database, db': Database, id: string, e: Entry)
    requires Touched(db, db', id, e)
    ensures db'.secret == db.secret && id in db'.effects && db'.effects.Keys == db.effects.Keys + {id}
    ensures db'.EntryAt(id) == e
    ensures forall x :: x in db.effects && x != id ==> db'.EntryAt(x) == db.EntryAt(x)
    ensures db'.ReceiptRow(id) == db'.ReceiptRow(id)
  {
    hide Database.EntryAt, Database.ReceiptRow;
  }

  lemma NewReceipt(record: Record)
    ensures EntryReceipt(NewEntry(record)) == None && NewEntry(record).record == record
  {
  }

  /** Listing the same effects in another order keeps the ledger sound. */
  lemma Reordered(l: Ledger, l': Ledger)
    requires LedgerOk(l) && l' == l.(order := l'.order)
    requires (forall x :: x in l'.order <==> x in l.order) && NoRepeats(l'.order)
    ensures LedgerOk(l')
  {
    hide EntryOk;
  }

  lemma PlacedOk(db: Database, id: string, record: Record)
    requires LedgerOk(db.View()) && id !in db.effects && record.effectId == id
    ensures var r := Placed(db.effects, db.index, record);
            (forall x :: x in r <==> x in db.index + [id]) && NoRepeats(r)
  {
    hide EntryOk, IdentityOk, Database.EntryAt;
    ViewFacts(db);
    assert id !in db.View().order;
    PlacedDistinct(db.effects, db.index, record);
  }

  // ---------------------------------------------------------------- the claiming loop

  datatype Batch = Batch(worker: string, dueAt: int, now: int, leaseFor: int, limit: int)

  /** The first i rows of the index have been looked at and ids of them claimed. */
  ghost predicate MidClaim(l: Ledger, db: Database, b: Batch, i: nat, ids: seq<string>, claimed: seq<Record>) {
    && LedgerOk(l) && db.index == l.order && i <= |l.order| && db.secret == l.secret
    && db.ForeignKeys() && db.ReceiptsOk() && db.effects.Keys == l.entries.Keys
    && (forall id :: id in ids ==> id in l.order[..i])
    && (forall id :: id in ids ==> id in l.entries && Due(l.entries[id], b.dueAt))
    && ids + FirstDue(l, l.order[i..], b.dueAt, b.limit - |ids|) == FirstDue(l, l.order, b.dueAt, b.limit)
    && db.View() == ClaimAll(l, ids, b.worker, b.now, b.leaseFor)
    && claimed == ClaimedRecords(l, ids, b.worker, b.now, b.leaseFor)
  }

  lemma ClaimBegins(l: Ledger, db: Database, b: Batch)
    requires LedgerOk(l) && db.View() == l && db.ForeignKeys() && db.ReceiptsOk()
    ensures MidClaim(l, db, b, 0, [], [])
  {
    hide LedgerOk, FirstDue, ClaimEntry, Due, Database.EntryAt;
    MemoryStore.ClaimNone(l, b.worker, b.now, b.leaseFor);
    ViewFacts(db);
    assert l.order[0..] == l.order;
  }

  lemma RowDue(db: Database, id: string, at: int)
    requires id in db.effects
    ensures Due(db.EntryAt(id), at) <==>
            Claimable(db.effects[id].record.status)
            && (db.effects[id].lease.Some? ==> db.effects[id].lease.value.expiresAt <= at)
  {
  }

  lemma ClaimStep(l: Ledger, db: Database, b: Batch, i: nat, ids: seq<string>, claimed: seq<Record>)
    requires MidClaim(l, db, b, i, ids, claimed) && i < |db.index| && |ids| < b.limit
    ensures db.index[i] in db.effects
    ensures var id := db.index[i];
            var row := db.effects[id];
            var due := Claimable(row.record.status) && (row.lease.Some? ==> row.lease.value.expiresAt <= b.dueAt);
            if due then
              MidClaim(l, ClaimedRow(db, id, b.worker, b.now, b.leaseFor), b, i + 1, ids + [id],
                       claimed + [ClaimEntry(db.EntryAt(id), b.worker, b.now, b.leaseFor).record])
            else MidClaim(l, db, b, i + 1, ids, claimed)
  {
    hide LedgerOk, FirstDue, ClaimEntry, ClaimAll, ClaimedRecords, Due, Database.View, Database.EntryAt, ClaimedRow, Database.ForeignKeys,
         Database.ReceiptsOk, EntryReceipt;
    var id := db.index[i];
    MemoryStore.EntryInOrder(l, l.order, i);
    NotYetClaimed(db, l, ids, id, b);
    RowDue(db, id, b.dueAt);
    MemoryStore.FirstDueStep(l, l.order, i, b.dueAt, b.limit, ids);
    assert l.order[..i + 1] == l.order[..i] + [id];
    if Due(l.entries[id], b.dueAt) {
      ClaimRowRefines(db, id, b);
      MemoryStore.ClaimOneMore(l, ids, id, b.worker, b.now, b.leaseFor);
      MemoryStore.ClaimedGrows(l, ids, id, b.worker, b.now, b.leaseFor);
    }
  }

  lemma NotYetClaimed(db: Database, l: Ledger, ids: seq<string>, id: string, b: Batch)
    requires db.View() == ClaimAll(l, ids, b.worker, b.now, b.leaseFor) && id in l.entries && id !in ids
    ensures id in db.effects && db.EntryAt(id) == l.entries[id]
  {
    hide ClaimEntry, Database.EntryAt;
    assert id in db.View().entries;
  }

  lemma ClaimRowRefines(db: Database, id: string, b: Batch)
    requires db.ForeignKeys() && db.ReceiptsOk() && id in db.effects
    ensures var db' := ClaimedRow(db, id, b.worker, b.now, b.leaseFor);
            && db'.ForeignKeys() && db'.ReceiptsOk() && db'.effects.Keys == db.effects.Keys
            && db'.index == db.index && db'.secret == db.secret
            && db'.View() == db.View().(entries :=
                 db.View().entries[id := ClaimEntry(db.EntryAt(id), b.worker, b.now, b.leaseFor)])
  {
    hide Database.View, EventsOf, AttemptsOf, EntryReceipt, Touched;
    var db', e := ClaimedRow(db, id, b.worker, b.now, b.leaseFor), db.EntryAt(id);
    ClaimTouches(db, id, b.worker, b.now, b.leaseFor);
    var e' := ClaimEntry(e, b.worker, b.now, b.leaseFor);
    TouchedView(db, db', id, e');
    QuietReceipt(e, e', e'.events[|e.events|]);
    TouchedReceipts(db, db', id, e');
    ForeignKeysKept(db, db', id);
  }

  lemma ClaimEnds(l: Ledger, db: Database, b: Batch, i: nat, ids: seq<string>, claimed: seq<Record>)
    requires MidClaim(l, db, b, i, ids, claimed) && (i == |db.index| || |ids| >= b.limit) && b.dueAt <= b.now
    ensures db.DatabaseOk()
    ensures var first := FirstDue(l, l.order, b.dueAt, b.limit);
            && db.View() == ClaimAll(l, first, b.worker, b.now, b.leaseFor)
            && claimed == ClaimedRecords(l, first, b.worker, b.now, b.leaseFor)
  {
    hide LedgerOk, FirstDue, ClaimEntry, ClaimAll, ClaimedRecords, Database.View, Database.ForeignKeys, Database.ReceiptsOk;
    MemoryStore.FirstDueEnds(l, l.order[i..], b.dueAt, b.limit - |ids|);
    assert ids + [] == ids;
    ClaimAllKeepsLedger(l, ids, b.worker, b.now, b.leaseFor);
  }

  // ---------------------------------------------------------------- the store

  /** The instant against which leases count as expired: SQLite admits equality, Postgres does not. */
  function DueAt(dialect: Dialect, now: int): int {
    if dialect.Sqlite? then now else now - 1
  }

  class TableStore {
    const dialect: Dialect
    const secret: string
    var effects: map<string, EffectRow>
    var unique: map<(string, string), string>
    var index: seq<string>
    var attempts: seq<Attempt>
    var events: seq<EventRow>
    var receipts: map<string, Receipt>

    function Contents(): Database
      reads this
    {
      Database(dialect, secret, effects, unique, index, attempts, events, receipts)
    }

    ghost predicate Valid()
      reads this
    {
      Contents().DatabaseOk() && receipts.Keys <= effects.Keys && InOrder(effects, index)
    }

    ghost function Model(): Ledger
      reads this
    {
      Contents().View()
    }

    constructor (dialect: Dialect, secret: string)
      ensures Valid() && this.dialect == dialect && this.secret == secret
      ensures Model() == EmptyLedger(secret)
    {
      this.dialect, this.secret := dialect, secret;
      effects, unique, index, attempts, events, receipts := map[], map[], [], [], [], map[];
      new;
      EmptyLedgerOk(secret);
      assert Contents().View() == EmptyLedger(secret);
    }

    /** SELECT COUNT(*) FROM events WHERE effect_id = id. */
    method CountEvents(id: string) returns (n: nat)
      ensures n == |EventsOf(events, id)|
    {
      n := 0;
      for i := 0 to |events|
        invariant n == |EventsOf(events[..i], id)|
      {
        assert events[..i + 1][..i] == events[..i];
        if events[i].effectId == id {
          n := n + 1;
        }
      }
      assert events[..|events|] == events;
    }

    /** SELECT MAX(sequence) FROM events WHERE effect_id = id, 0 when there is none. */
    method MaxEvent(id: string) returns (n: nat)
      ensures n == MaxSequence(events, id)
    {
      n := 0;
      for i := 0 to |events|
        invariant n == MaxSequence(events[..i], id)
      {
        assert events[..i + 1][..i] == events[..i];
        if events[i].effectId == id && events[i].event.sequence > n {
          n := events[i].event.sequence;
        }
      }
      assert events[..|events|] == events;
    }

    method CountAttempts(id: string) returns (n: nat)
      ensures n == |AttemptsOf(attempts, id)|
    {
      n := 0;
      for i := 0 to |attempts|
        invariant n == |AttemptsOf(attempts[..i], id)|
      {
        assert attempts[..i + 1][..i] == attempts[..i];
        if attempts[i].effectId == id {
          n := n + 1;
        }
      }
      assert attempts[..|attempts|] == attempts;
    }

    /** COUNT + 1 in SQLite, MAX + 1 in Postgres: the same number. */
    method AppendEvent(id: string, version: nat, at: int, body: EventBody)
      requires forall i :: 0 <= i < |EventsOf(events, id)| ==> EventsOf(events, id)[i].sequence == i + 1
      modifies this`events
      ensures Contents() == WithEvent(old(Contents()), id, version, at, body)
    {
      MaxIsCount(events, id);
      var last;
      if dialect.Sqlite? {
        last := CountEvents(id);
      } else {
        last := MaxEvent(id);
      }
      events := events + [EventRow(id, Event(last + 1, version, at, body))];
    }

    method RecordForExpectedVersion(id: string, expected: nat) returns (r: Result<Record, StoreError>)
      requires Valid()
      ensures match ForUpdate(Model(), id, expected)
              case Ok(e) => r == Ok(e.record)
              case Err(error) => r == Err(error)
    {
      hide LedgerOk, Database.View, Database.EntryAt;
      ViewFacts(Contents());
      if id !in effects {
        return Err(UnknownEffect(id));
      }
      RowRecord(Contents(), id);
      if effects[id].record.version != expected {
        return Err(VersionConflict(id));
      }
      r := Ok(effects[id].record);
    }

    /** Checks, then UPDATE ... WHERE version = expected with the lease set to NULL whatever the target. */
    method Transition(id: string, expected: nat, target: Status, data: Metadata, now: int) returns (r: Result<Record, StoreError>)
      requires Valid()
      modifies this`effects, this`events, this`receipts
      ensures Valid()
      ensures (Model(), r) == Spec.Transition(old(Model()), id, expected, target, data, now)
      ensures Writes(old(Model()), Model(), id, expected, target, data, now, r)
    {
      hide LedgerOk, Database.View, Database.EntryAt, Database.DatabaseOk, MoveEntry, Allowed, MovedRow, InOrder, Spec.Transition, Writes;
      RefusedTransition(Contents().View(), id, expected, target, data, now);
      ghost var db := Contents();
      DatabaseLedger(db);
      TransitionWrites(db.View(), id, expected, target, data, now);
      ViewFacts(db);
      var found := RecordForExpectedVersion(id, expected);
      if found.Err? {
        return Err(found.error);
      }
      var record := found.value;
      RowRecord(db, id);
      if !Allowed(record.status, target) {
        return Err(InvalidTransition(record.status, target));
      }
      MoveStatement(db, id, expected, target, data, now);
      var updated := UpdateRow(id, target, data, now);
      r := Ok(updated);
    }

    method UpdateRow(id: string, target: Status, data: Metadata, now: int) returns (updated: Record)
      requires Valid() && id in effects
      modifies this`effects, this`events, this`receipts
      ensures Contents() == MovedRow(old(Contents()), id, target, data, now)
      ensures updated == MoveEntry(old(Contents()).EntryAt(id), target, data, now).record
    {
      hide LedgerOk, Database.View, EventsOf, AttemptsOf;
      SequencesOk(Contents(), id);
      var record := effects[id].record;
      updated := record.(status := target, version := record.version + 1, updatedAt := now);
      effects := effects[id := EffectRow(updated, None)];
      AppendEvent(id, updated.version, now, Moved(record.status, target, data));
      if dialect.Postgres? && target == Succeeded {
        receipts := receipts[id := ReceiptOf(updated, data, now)];
      }
    }

    /** Claims rows in index order until the limit; a Postgres lease is over only strictly after its end. */
    method ClaimDue(worker: string, now: int, leaseFor: int, limit: int) returns (claimed: seq<Record>)
      requires Valid()
      modifies this`effects, this`events
      ensures Valid()
      ensures var ids := FirstDue(old(Model()), old(index), DueAt(dialect, now), limit);
              && Model() == ClaimAll(old(Model()), ids, worker, now, leaseFor)
              && claimed == ClaimedRecords(old(Model()), ids, worker, now, leaseFor)
      ensures HandsOut(old(Model()), Model(), claimed, worker, now, leaseFor, limit, dialect.Postgres?)
    {
      hide LedgerOk, MidClaim, Database.DatabaseOk, Database.View, Database.EntryAt, ClaimAll, ClaimedRow, ClaimedRecords, FirstDue, Due,
           InOrder, HandsOut;
      ghost var l, batch := Model(), Batch(worker, DueAt(dialect, now), now, leaseFor, limit);
      ghost var ids: seq<string> := [];
      claimed := [];
      ViewFacts(Contents());
      DatabaseParts(Contents());
      ClaimHandsOut(l, worker, now, leaseFor, limit, dialect.Postgres?);
      ClaimBegins(l, Contents(), batch);
      var i := 0;
      while i < |index| && |claimed| < limit
        invariant 0 <= i <= |index| && |ids| == |claimed|
        invariant MidClaim(l, Contents(), batch, i, ids, claimed)
        invariant receipts.Keys <= effects.Keys && InOrder(effects, index)
      {
        var id := index[i];
        ClaimStep(l, Contents(), batch, i, ids, claimed);
        var row := effects[id];
        if Claimable(row.record.status) && (row.lease.Some? ==> row.lease.value.expiresAt <= DueAt(dialect, now)) {
          ClaimedRowFacts(Contents(), id, worker, now, leaseFor);
          MidSequences(l, Contents(), batch, i, ids, claimed, id);
          var updated := ClaimRow(id, worker, now, leaseFor);
          ids := ids + [id];
          claimed := claimed + [updated];
        }
        i := i + 1;
      }
      ClaimEnds(l, Contents(), batch, i, ids, claimed);
    }

    method ClaimRow(id: string, worker: string, now: int, leaseFor: int) returns (updated: Record)
      requires id in effects
      requires forall i :: 0 <= i < |EventsOf(events, id)| ==> EventsOf(events, id)[i].sequence == i + 1
      modifies this`effects, this`events
      ensures Contents() == ClaimedRow(old(Contents()), id, worker, now, leaseFor)
      ensures updated == ClaimEntry(old(Contents()).EntryAt(id), worker, now, leaseFor).record
    {
      hide EventsOf, AttemptsOf;
      updated := effects[id].record.(version := effects[id].record.version + 1, updatedAt := now);
      effects := effects[id := EffectRow(updated, Some(Lease(worker, now + leaseFor)))];
      AppendEvent(id, updated.version, now, Claimed(worker, now + leaseFor));
    }

    /** INSERT, and on a conflict of the unique index the row that is already there. */
    method Reserve(id: string, tenantId: string, request: Request, contract: Contract, now: int)
      returns (r: Result<Reservation, StoreError>)
      requires Valid() && id !in effects
      modifies this`effects, this`unique, this`index, this`events
      ensures Valid()
      ensures var (l, result) := Spec.Reserve(old(Model()), id, tenantId, request, contract, now);
              && r == result
              && Model() == l.(order := index)
              && index == if r.Ok? && r.value.created then Placed(old(effects), old(index), r.value.effect) else old(index)
      ensures Reserves(old(Model()), Model(), id, tenantId, request, contract, now, r)
    {
      hide LedgerOk, Database.View, Database.EntryAt, Database.DatabaseOk, RequestHash, Placed, InOrder, NewRecord, InsertedRow, Reserves;
      ghost var db := Contents();
      DatabaseParts(db);
      ReserveReserves(db.View(), id, tenantId, request, contract, now);
      ViewFacts(db);
      var digest := RequestHash(request.tool, request.arguments, contract.name, contract.version);
      if digest.Err? {
        return Err(NotCanonical(digest.error));
      }
      var operation := (tenantId, request.operationKey);
      if operation in unique {
        UniqueKnown(db, operation);
        RowRecord(db, unique[operation]);
        var existing := effects[unique[operation]].record;
        if existing.requestHash != digest.value {
          return Err(PayloadConflict(request.operationKey, existing.requestHash, digest.value));
        }
        return Ok(Reservation(existing, false, true));
      }
      var record := NewRecord(secret, id, tenantId, request, digest.value, contract, now);
      MemoryStore.NewRecordFacts(secret, id, tenantId, request, digest.value, contract, now);
      NewRecordId(secret, id, tenantId, request, digest.value, contract, now);
      InsertRefines(db, id, record);
      InsertedRowFacts(db, id, record);
      InsertRow(id, record);
      r := Ok(Reservation(record, true, false));
      ReservesAnywhere(db.View(), Spec.Reserve(db.View(), id, tenantId, request, contract, now).0, index,
                       id, tenantId, request, contract, now, r);
    }

    method InsertRow(id: string, record: Record)
      requires forall i :: 0 <= i < |EventsOf(events, id)| ==> EventsOf(events, id)[i].sequence == i + 1
      modifies this`effects, this`unique, this`index, this`events
      ensures Contents() == InsertedRow(old(Contents()), id, record)
    {
      hide EventsOf, Placed;
      index := Placed(effects, index, record);
      effects := effects[id := EffectRow(record, None)];
      unique := unique[(record.tenantId, record.request.operationKey) := id];
      AppendEvent(id, record.version, record.createdAt, Reserved(record.status));
    }

    /** A record is shown to its own tenant and to nobody else. */
    method Get(tenantId: string, id: string) returns (r: Option<Record>)
      requires Valid()
      ensures r == Spec.Get(Model(), tenantId, id)
      ensures r.Some? <==> id in Model().entries && Model().entries[id].record.tenantId == tenantId
      ensures r.Some? ==> r.value == Model().entries[id].record
    {
      hide LedgerOk, Database.View, Database.EntryAt;
      ViewFacts(Contents());
      if id !in effects {
        return None;
      }
      RowRecord(Contents(), id);
      r := if effects[id].record.tenantId == tenantId then Some(effects[id].record) else None;
    }

    method StartAttempt(id: string, expected: nat, worker: string, now: int) returns (r: Result<string, StoreError>)
      requires Valid()
      modifies this`attempts, this`events
      ensures Valid()
      ensures (Model(), r) == Spec.StartAttempt(old(Model()), id, expected, worker, now)
      ensures Attempts(old(Model()), Model(), id, expected, worker, now, r)
    {
      hide LedgerOk, Database.View, Database.EntryAt, Database.DatabaseOk, AttemptEntry, AttemptedRow, AttemptId, InOrder, Attempts;
      AttemptedRowFacts(Contents(), id, worker, now);
      ghost var db := Contents();
      DatabaseLedger(db);
      StartAttempts(db.View(), id, expected, worker, now);
      ViewFacts(db);
      var found := RecordForExpectedVersion(id, expected);
      if found.Err? {
        return Err(found.error);
      }
      RowRecord(db, id);
      EntryOfRow(db, id);
      AttemptRefines(db, id, worker, now);
      var attemptId := InsertAttempt(id, worker, now);
      r := Ok(attemptId);
    }

    method InsertAttempt(id: string, worker: string, now: int) returns (attemptId: string)
      requires Valid() && id in effects
      modifies this`attempts, this`events
      ensures Contents() == AttemptedRow(old(Contents()), id, worker, now)
      ensures attemptId == AttemptId(id, |AttemptsOf(old(attempts), id)| + 1)
    {
      hide LedgerOk, Database.View, EventsOf, AttemptsOf, AttemptId;
      SequencesOk(Contents(), id);
      var made := CountAttempts(id);
      attemptId := AttemptId(id, made + 1);
      attempts := attempts + [Attempt(attemptId, id, made + 1, worker, effects[id].record.version, now)];
      AppendEvent(id, effects[id].record.version, now, AttemptStarted(attemptId, made + 1, worker));
    }

    /** The SQLite store scans the log; the Postgres store reads the receipt row. */
    method Receipt(tenantId: string, id: string) returns (r: Option<Receipt>)
      requires Valid()
      ensures r == ReceiptFor(Model(), tenantId, id)
      ensures Shows(Model(), tenantId, id, r)
    {
      hide LedgerOk, Database.View, Database.EntryAt, EntryReceipt, Shows;
      ReceiptShows(Model(), tenantId, id);
      ViewFacts(Contents());
      if id !in effects {
        return None;
      }
      RowRecord(Contents(), id);
      if effects[id].record.tenantId != tenantId {
        return None;
      }
      if dialect.Postgres? {
        return if id in receipts then Some(receipts[id]) else None;
      }
      r := ScanReceipt(id);
    }

    method ScanReceipt(id: string) returns (r: Option<Receipt>)
      requires id in effects
      ensures r == EntryReceipt(Contents().EntryAt(id))
    {
      hide EventsOf, LastSuccess, AttemptsOf;
      var i := |events|;
      assert events[..i] == events;
      while i > 0
        invariant 0 <= i <= |events|
        invariant LastSuccess(EventsOf(events, id)) == LastSuccess(EventsOf(events[..i], id))
      {
        i := i - 1;
        ScanStep(events, i, id);
        if events[i].effectId == id && events[i].event.body.Moved? && events[i].event.body.to == Succeeded {
          return Some(ReceiptOf(effects[id].record, events[i].event.body.metadata, events[i].event.at));
        }
      }
      NothingToScan(id);
      r := None;
    }
  }

  /** One row of the log, seen from behind. */
  lemma ScanStep(rows: seq<EventRow>, i: nat, id: string)
    requires i < |rows|
    ensures LastSuccess(EventsOf(rows[..i + 1], id)) ==
            if rows[i].effectId == id && IsSuccess(rows[i].event) then Some(rows[i].event)
            else LastSuccess(EventsOf(rows[..i], id))
  {
    assert rows[..i + 1] == rows[..i] + [rows[i]];
    EventsAppended(rows[..i], rows[i], id);
    if rows[i].effectId == id {
      var front := EventsOf(rows[..i], id);
      assert (front + [rows[i].event])[..|front|] == front;
    } else {
      assert EventsOf(rows[..i], id) + [] == EventsOf(rows[..i], id);
    }
  }

  lemma NothingToScan(id: string)
    ensures LastSuccess(EventsOf([], id)) == None
  {
  }

  lemma DatabaseParts(db: Database)
    requires db.DatabaseOk()
    ensures LedgerOk(db.View()) && db.ForeignKeys() && db.ReceiptsOk()
  {
  }

  lemma ClaimedRowFacts(db: Database, id: string, worker: string, now: int, leaseFor: int)
    requires id in db.effects
    ensures var db' := ClaimedRow(db, id, worker, now, leaseFor);
            && db'.effects.Keys == db.effects.Keys && db'.index == db.index
            && (InOrder(db.effects, db.index) ==> InOrder(db'.effects, db.index))
  {
    if InOrder(db.effects, db.index) {
      InOrderKnown(db.effects, db.index);
      SameInOrder(db.effects, ClaimedRow(db, id, worker, now, leaseFor).effects, db.index);
    }
  }

  /** An effect not yet claimed in this batch still has its log. */
  lemma MidSequences(l: Ledger, db: Database, b: Batch, i: nat, ids: seq<string>, claimed: seq<Record>, id: string)
    requires MidClaim(l, db, b, i, ids, claimed) && i < |db.index| && id == db.index[i]
    ensures forall j :: 0 <= j < |EventsOf(db.events, id)| ==> EventsOf(db.events, id)[j].sequence == j + 1
  {
    hide LedgerOk, FirstDue, ClaimAll, ClaimedRecords, Due, EventsOf, AttemptsOf, AttemptsOk;
    MemoryStore.EntryInOrder(l, l.order, i);
    NotYetClaimed(db, l, ids, id, b);
    EntryFacts(l, id);
    RowRecord(db, id);
  }

  lemma UniqueKnown(db: Database, operation: (string, string))
    requires LedgerOk(db.View()) && operation in db.unique
    ensures db.unique[operation] in db.effects
  {
    hide EntryOk, OrderOk, Database.EntryAt;
    ViewFacts(db);
    assert db.View().identity[operation] in db.View().entries;
  }

  lemma NewRecordId(secret: string, id: string, tenantId: string, request: Request, digest: Digest, contract: Contract, now: int)
    ensures NewRecord(secret, id, tenantId, request, digest, contract, now).effectId == id
    ensures NewRecord(secret, id, tenantId, request, digest, contract, now).tenantId == tenantId
    ensures NewRecord(secret, id, tenantId, request, digest, contract, now).request == request
  {
  }

  lemma InsertedRowFacts(db: Database, id: string, record: Record)
    requires InOrder(db.effects, db.index) && id !in db.effects && record.effectId == id && db.ForeignKeys()
    ensures var db' := InsertedRow(db, id, record);
            && db'.receipts == db.receipts && db'.effects.Keys == db.effects.Keys + {id}
            && db'.index == Placed(db.effects, db.index, record)
            && InOrder(db'.effects, db'.index)
    ensures EventsOf(db.events, id) == []
  {
    hide Placed, InOrder;
    InOrderKnown(db.effects, db.index);
    PlacedInOrder(db.effects, db.effects[id := EffectRow(record, None)], db.index, record);
    NoEvents(db.events, id);
  }

  lemma DatabaseLedger(db: Database)
    requires db.DatabaseOk()
    ensures LedgerOk(db.View())
  {
  }

  lemma SequencesOk(db: Database, id: string)
    requires LedgerOk(db.View()) && id in db.effects
    ensures forall i :: 0 <= i < |EventsOf(db.events, id)| ==> EventsOf(db.events, id)[i].sequence == i + 1
  {
    hide LedgerOk;
    EntryOfRow(db, id);
  }

  lemma MovedRecordFacts(db: Database, id: string, target: Status, data: Metadata, now: int)
    requires id in db.effects
    ensures MovedRow(db, id, target, data, now).receipts.Keys <= db.receipts.Keys + {id}
    ensures MovedRow(db, id, target, data, now).effects.Keys == db.effects.Keys
    ensures MovedRow(db, id, target, data, now).index == db.index
    ensures InOrder(db.effects, db.index) ==> InOrder(MovedRow(db, id, target, data, now).effects, db.index)
  {
    if InOrder(db.effects, db.index) {
      InOrderKnown(db.effects, db.index);
      SameInOrder(db.effects, MovedRow(db, id, target, data, now).effects, db.index);
    }
  }

  /** A transition refused by version or status leaves the ledger as it is. */
  lemma RefusedTransition(l: Ledger, id: string, expected: nat, target: Status, data: Metadata, now: int)
    ensures match ForUpdate(l, id, expected)
            case Err(error) => Spec.Transition(l, id, expected, target, data, now) == (l, Err(error))
            case Ok(e) =>
              !Allowed(e.record.status, target) ==>
                Spec.Transition(l, id, expected, target, data, now) == (l, Err(InvalidTransition(e.record.status, target)))
  {
  }

  /** The conditional update, when it goes through, is the transition. */
  lemma MoveStatement(db: Database, id: string, expected: nat, target: Status, data: Metadata, now: int)
    requires db.DatabaseOk() && InOrder(db.effects, db.index) && db.receipts.Keys <= db.effects.Keys
    requires id in db.effects && db.effects[id].record.version == expected && Allowed(db.effects[id].record.status, target)
    ensures var db' := MovedRow(db, id, target, data, now);
            && db'.DatabaseOk() && InOrder(db'.effects, db'.index) && db'.receipts.Keys <= db'.effects.Keys
            && Spec.Transition(db.View(), id, expected, target, data, now)
               == (db'.View(), Ok(MoveEntry(db.EntryAt(id), target, data, now).record))
  {
    hide Database.View, Database.EntryAt, Database.DatabaseOk, MoveEntry, Allowed, MovedRow, InOrder;
    ViewFacts(db);
    RowRecord(db, id);
    MoveRefines(db, id, target, data, now);
    MovedRecordFacts(db, id, target, data, now);
  }

  lemma AttemptedRowFacts(db: Database, id: string, worker: string, now: int)
    ensures id in db.effects ==>
              var db' := AttemptedRow(db, id, worker, now);
              db'.effects == db.effects && db'.index == db.index && db'.receipts == db.receipts
  {
  }

  lemma InOrderKnown(effects: map<string, EffectRow>, index: seq<string>)
    requires InOrder(effects, index)
    ensures forall x :: x in index ==> x in effects
  {
    forall x | x in index
      ensures x in effects
    {
      var i :| 0 <= i < |index| && index[i] == x;
    }
  }
}
