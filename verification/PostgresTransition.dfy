/**
 * The Postgres transition (src/effect_broker/store/postgres.py): an unlocked read, a status check on what
 * was read, and later an UPDATE conditional on the version alone. Other writers come in between. It is
 * nevertheless one atomic transition, because along every history the version determines the status.
 */
module PostgresTransition {
  import opened Prelude
  import opened Models
  import opened StateMachine
  import opened Ledger
  import opened LedgerProofs
  import opened ProtocolInvariant
  import opened StoresAgree

  /** A transition between its read and its update. */
  datatype Pending = Pending(read: Record, target: Status, data: Metadata)

  datatype Postgres = Postgres(ledger: Ledger, pending: map<nat, Pending>)

  datatype Statement =
    | Atomically(newId: string, op: Operation)
    | Read(a: nat, id: string, expected: nat, target: Status, data: Metadata)
    | Update(a: nat, now: int)
    | Disconnect(a: nat)

  /** UPDATE ... SET status = target, lease = NULL: the status that was checked is the one that was read. */
  function Overwrite(e: Entry, checked: Status, target: Status, data: Metadata, now: int): Entry {
    var record := e.record.(status := target, version := e.record.version + 1, updatedAt := now);
    e.(record := record, lease := None, events := Appended(e.events, record.version, now, Moved(checked, target, data)))
  }

  function Execute(p: Postgres, s: Statement): (Postgres, seq<Reply>) {
    match s
    case Atomically(newId, op) =>
      if newId in p.ledger.entries then (p, [])
      else var (l, reply) := Apply(p.ledger, newId, op); (p.(ledger := l), [reply])
    case Read(a, id, expected, target, data) =>
      if a in p.pending then (p, [])
      else
        (match ForUpdate(p.ledger, id, expected)
         case Err(error) => (p, [MovedRecord(Err(error))])
         case Ok(e) =>
           if !Allowed(e.record.status, target) then (p, [MovedRecord(Err(InvalidTransition(e.record.status, target)))])
           else (p.(pending := p.pending[a := Pending(e.record, target, data)]), []))
    case Update(a, now) =>
      if a !in p.pending then (p, [])
      else
        var q := p.pending[a];
        var id := q.read.effectId;
        var done := p.(pending := p.pending - {a});
        if id in p.ledger.entries && p.ledger.entries[id].record.version == q.read.version then
          var e := Overwrite(p.ledger.entries[id], q.read.status, q.target, q.data, now);
          (done.(ledger := p.ledger.(entries := p.ledger.entries[id := e])), [MovedRecord(Ok(e.record))])
        else (done, [MovedRecord(Err(VersionConflict(id)))])
    case Disconnect(a) => (p.(pending := p.pending - {a}), [])
  }

  /** The atomic operations a statement stands for: a refused read and an update each count as one transition. */
  function Linearized(p: Postgres, s: Statement): seq<(string, Operation)> {
    match s
    case Atomically(newId, op) => if newId in p.ledger.entries then [] else [(newId, op)]
    case Read(a, id, expected, target, data) =>
      if Execute(p, s).1 == [] then [] else [("", Moving(id, expected, target, data, 0))]
    case Update(a, now) =>
      if a !in p.pending then []
      else
        var q := p.pending[a];
        [("", Moving(q.read.effectId, q.read.version, q.target, q.data, now))]
    case Disconnect(_) => []
  }

  function ExecuteAll(p: Postgres, run: seq<Statement>): (Postgres, seq<Reply>) {
    if run == [] then (p, [])
    else
      var (before, replies) := ExecuteAll(p, run[..|run| - 1]);
      var (after, more) := Execute(before, run[|run| - 1]);
      (after, replies + more)
  }

  function LinearizedAll(p: Postgres, run: seq<Statement>): seq<(string, Operation)> {
    if run == [] then []
    else LinearizedAll(p, run[..|run| - 1]) + Linearized(ExecuteAll(p, run[..|run| - 1]).0, run[|run| - 1])
  }

  function ApplyAll(l: Ledger, ops: seq<(string, Operation)>): (Ledger, seq<Reply>) {
    if ops == [] then (l, [])
    else
      var (before, replies) := ApplyAll(l, ops[..|ops| - 1]);
      var (after, reply) := Apply(before, ops[|ops| - 1].0, ops[|ops| - 1].1);
      (after, replies + [reply])
  }

  // ---------------------------------------------------------------- the invariant

  ghost predicate PendingOk(l: Ledger, q: Pending) {
    SnapOk(l, q.read) && Allowed(q.read.status, q.target)
  }

  ghost predicate PostgresOk(p: Postgres) {
    LedgerOk(p.ledger) && forall a :: a in p.pending ==> PendingOk(p.ledger, p.pending[a])
  }

  lemma PendingKept(p: Postgres, p': Postgres)
    requires PostgresOk(p) && Grows(p.ledger, p'.ledger) && LedgerOk(p'.ledger)
    requires forall a :: a in p'.pending ==> a in p.pending && p'.pending[a] == p.pending[a]
    ensures PostgresOk(p')
  {
    hide LedgerOk, Grows, SnapOk;
    forall a | a in p'.pending
      ensures PendingOk(p'.ledger, p'.pending[a])
    {
      assert PendingOk(p.ledger, p.pending[a]);
      SnapMonotone(p.ledger, p'.ledger, p.pending[a].read);
    }
  }

  /** Every atomic operation keeps the ledger sound and lets it only grow. */
  lemma ApplyGrows(l: Ledger, newId: string, op: Operation)
    requires LedgerOk(l) && (op.Reserving? ==> newId !in l.entries)
    ensures LedgerOk(Apply(l, newId, op).0) && Grows(l, Apply(l, newId, op).0)
  {
    hide LedgerOk, Grows, Reserve, Transition, StartAttempt, ClaimAll, ClaimedRecords, ReceiptFor, Get, Due;
    UnchangedGrows(l);
    match op
    case Reserving(tenantId, request, contract, now) => ReserveKeepsLedger(l, newId, tenantId, request, contract, now);
    case Claiming(worker, now, leaseFor, limit) => ClaimAllKeepsLedger(l, FirstDue(l, l.order, now, limit), worker, now, leaseFor);
    case Attempting(id, expected, worker, now) => StartAttemptKeepsLedger(l, id, expected, worker, now);
    case Moving(id, expected, target, data, now) => TransitionKeepsLedger(l, id, expected, target, data, now);
    case _ =>
  }

  /** The check made on a stale read still holds when the conditional update goes through. */
  lemma OverwriteIsMove(l: Ledger, q: Pending, now: int)
    requires LedgerOk(l) && PendingOk(l, q) && l.entries[q.read.effectId].record.version == q.read.version
    ensures var e := l.entries[q.read.effectId];
            && e.record == q.read
            && Overwrite(e, q.read.status, q.target, q.data, now) == MoveEntry(e, q.target, q.data, now)
            && e.record.effectId == q.read.effectId
  {
    hide IdentityOk, OrderOk, LogOk, AttemptsOk;
    EntryFacts(l, q.read.effectId);
  }

  /** One statement is its atomic operations, reply for reply. */
  lemma StatementRefines(p: Postgres, s: Statement)
    requires PostgresOk(p)
    ensures PostgresOk(Execute(p, s).0)
    ensures var (l, replies) := ApplyAll(p.ledger, Linearized(p, s));
            Execute(p, s).0.ledger == l && Execute(p, s).1 == replies
  {
    match s
    case Atomically(newId, op) => AtomicRefines(p, newId, op);
    case Read(a, id, expected, target, data) => ReadRefines(p, a, id, expected, target, data);
    case Update(a, now) => UpdateRefines(p, a, now);
    case Disconnect(a) =>
      UnchangedGrows(p.ledger);
      PendingKept(p, Execute(p, s).0);
  }

  lemma ApplyOne(l: Ledger, newId: string, op: Operation)
    ensures ApplyAll(l, [(newId, op)]) == (Apply(l, newId, op).0, [Apply(l, newId, op).1])
  {
    hide Apply;
    var ops, none: seq<(string, Operation)> := [(newId, op)], [];
    assert ops[..|ops| - 1] == none && ApplyAll(l, none) == (l, []);
    var replies: seq<Reply> := [];
    assert replies + [Apply(l, newId, op).1] == [Apply(l, newId, op).1];
  }

  lemma AtomicRefines(p: Postgres, newId: string, op: Operation)
    requires PostgresOk(p)
    ensures var s := Atomically(newId, op);
            && PostgresOk(Execute(p, s).0)
            && (Execute(p, s).0.ledger, Execute(p, s).1) == ApplyAll(p.ledger, Linearized(p, s))
  {
    hide LedgerOk, Grows, Apply;
    if newId !in p.ledger.entries {
      ApplyOne(p.ledger, newId, op);
      ApplyGrows(p.ledger, newId, op);
      PendingKept(p, Execute(p, Atomically(newId, op)).0);
    }
  }

  lemma ReadRefines(p: Postgres, a: nat, id: string, expected: nat, target: Status, data: Metadata)
    requires PostgresOk(p)
    ensures var s := Read(a, id, expected, target, data);
            && PostgresOk(Execute(p, s).0)
            && (Execute(p, s).0.ledger, Execute(p, s).1) == ApplyAll(p.ledger, Linearized(p, s))
  {
    hide LedgerOk, SnapOk, MoveEntry;
    ApplyOne(p.ledger, "", Moving(id, expected, target, data, 0));
    if ForUpdate(p.ledger, id, expected).Ok? {
      CurrentSnap(p.ledger, id);
    }
  }

  lemma UpdateRefines(p: Postgres, a: nat, now: int)
    requires PostgresOk(p)
    ensures var s := Update(a, now);
            && PostgresOk(Execute(p, s).0)
            && (Execute(p, s).0.ledger, Execute(p, s).1) == ApplyAll(p.ledger, Linearized(p, s))
  {
    hide LedgerOk, Grows, MoveEntry, Overwrite;
    if a in p.pending {
      var q := p.pending[a];
      assert PendingOk(p.ledger, q);
      var op := Moving(q.read.effectId, q.read.version, q.target, q.data, now);
      ApplyOne(p.ledger, "", op);
      if p.ledger.entries[q.read.effectId].record.version == q.read.version {
        OverwriteIsMove(p.ledger, q, now);
      }
      ApplyGrows(p.ledger, "", op);
      PendingKept(p, Execute(p, Update(a, now)).0);
    }
  }

  lemma {:induction false} ApplyConcat(l: Ledger, first: seq<(string, Operation)>, second: seq<(string, Operation)>)
    ensures var (mid, replies) := ApplyAll(l, first);
            var (after, more) := ApplyAll(mid, second);
            ApplyAll(l, first + second) == (after, replies + more)
    decreases |second|
  {
    hide Apply;
    var (mid, replies) := ApplyAll(l, first);
    if second == [] {
      assert first + second == first && replies + [] == replies;
    } else {
      var all, front := first + second, second[..|second| - 1];
      assert all[..|all| - 1] == first + front;
      ApplyConcat(l, first, front);
      var (before, more) := ApplyAll(mid, front);
      var reply := Apply(before, second[|second| - 1].0, second[|second| - 1].1).1;
      assert (replies + more) + [reply] == replies + (more + [reply]);
    }
  }

  /**
   * Any interleaving of unlocked reads, conditional updates, lost connections and other operations leaves
   * the ledger, and gives the replies, of a sequence of atomic operations, each taking effect while its
   * own statements run.
   */
  lemma {:induction false} UnlockedIsAtomic(p: Postgres, run: seq<Statement>)
    requires PostgresOk(p)
    ensures PostgresOk(ExecuteAll(p, run).0)
    ensures (ExecuteAll(p, run).0.ledger, ExecuteAll(p, run).1) == ApplyAll(p.ledger, LinearizedAll(p, run))
  {
    hide PostgresOk, Execute, Linearized;
    if run == [] {
      assert ApplyAll(p.ledger, []) == (p.ledger, []);
    } else {
      var front := run[..|run| - 1];
      UnlockedIsAtomic(p, front);
      var before := ExecuteAll(p, front).0;
      StatementRefines(before, run[|run| - 1]);
      ApplyConcat(p.ledger, LinearizedAll(p, front), Linearized(before, run[|run| - 1]));
    }
  }
}
