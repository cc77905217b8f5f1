/**
 * The durable target of the crash matrix (examples/crash_matrix/target.py): a log of every commit call
 * and a table of committed effects, one per downstream key.
 */
module DurableTarget {
  import opened Prelude
  import opened Identifiers
  import opened PyValues
  import opened Identity
  import opened Canonical
  import opened Models
  import opened Target

  datatype TargetRow = TargetRow(externalId: string, key: DownstreamKey, payload: string)

  datatype CommitCall = CommitCall(key: DownstreamKey, payload: string)

  datatype Durable = Durable(rows: seq<TargetRow>, calls: seq<CommitCall>)

  const EMPTY_DURABLE := Durable([], [])

  /** The id committed under a key. */
  function Find(rows: seq<TargetRow>, key: DownstreamKey): (r: Option<string>)
    ensures r.None? <==> forall i :: 0 <= i < |rows| ==> rows[i].key != key
    ensures r.Some? ==> exists i :: 0 <= i < |rows| && rows[i].key == key && rows[i].externalId == r.value
  {
    if rows == [] then None
    else if rows[0].key == key then Some(rows[0].externalId)
    else
      assert rows == [rows[0]] + rows[1..];
      Find(rows[1..], key)
  }

  function CommitText(d: Durable, key: DownstreamKey, payload: string): (Durable, string) {
    var calls := d.calls + [CommitCall(key, payload)];
    match Find(d.rows, key)
    case Some(x) => (Durable(d.rows, calls), x)
    case None =>
      var x := ChargeId(|d.rows| + 1);
      (Durable(d.rows + [TargetRow(x, key, payload)], calls), x)
  }

  /** A payload that has no canonical text is refused before anything is written. */
  function CommitPayload(d: Durable, key: DownstreamKey, payload: PyValue): (Durable, Result<string, CanonicalError>) {
    match CanonicalJson(payload)
    case Err(error) => (d, Err(error))
    case Ok(text) => var (d', x) := CommitText(d, key, text); (d', Ok(x))
  }

  function Count(rows: seq<TargetRow>, key: DownstreamKey): nat {
    if rows == [] then 0
    else Count(rows[..|rows| - 1], key) + if rows[|rows| - 1].key == key then 1 else 0
  }

  function CallsFor(calls: seq<CommitCall>, key: DownstreamKey): nat {
    if calls == [] then 0
    else CallsFor(calls[..|calls| - 1], key) + if calls[|calls| - 1].key == key then 1 else 0
  }

  /** Ids are minted in order, keys are unique, and a key has a row exactly when it was ever called. */
  ghost predicate DurableOk(d: Durable) {
    && (forall i :: 0 <= i < |d.rows| ==> d.rows[i].externalId == ChargeId(i + 1))
    && (forall i, j :: 0 <= i < j < |d.rows| ==> d.rows[i].key != d.rows[j].key)
    && (forall i :: 0 <= i < |d.calls| ==> Find(d.rows, d.calls[i].key).Some?)
    && (forall i :: 0 <= i < |d.rows| ==> CallsFor(d.calls, d.rows[i].key) > 0)
  }

  lemma CallsForAppended(calls: seq<CommitCall>, c: CommitCall, key: DownstreamKey)
    ensures CallsFor(calls + [c], key) == CallsFor(calls, key) + if c.key == key then 1 else 0
  {
    assert (calls + [c])[..|calls|] == calls;
  }

  lemma FindAppended(rows: seq<TargetRow>, row: TargetRow, key: DownstreamKey)
    ensures Find(rows + [row], key) ==
            if Find(rows, key).Some? then Find(rows, key) else if row.key == key then Some(row.externalId) else None
  {
    if rows == [] {
    } else {
      assert (rows + [row])[1..] == rows[1..] + [row];
      FindAppended(rows[1..], row, key);
    }
  }

  lemma LaterCallsFound(d: Durable, row: TargetRow, call: CommitCall)
    requires forall i :: 0 <= i < |d.calls| ==> Find(d.rows, d.calls[i].key).Some?
    requires call.key == row.key
    ensures forall c :: c in d.calls + [call] ==> Find(d.rows + [row], c.key).Some?
  {
    hide Find;
    forall c | c in d.calls + [call]
      ensures Find(d.rows + [row], c.key).Some?
    {
      FindAppended(d.rows, row, c.key);
      assert c in d.calls || c == call;
    }
  }

  lemma LaterRowsCalled(d: Durable, call: CommitCall)
    requires forall i :: 0 <= i < |d.rows| ==> CallsFor(d.calls, d.rows[i].key) > 0
    ensures forall i :: 0 <= i < |d.rows| ==> CallsFor(d.calls + [call], d.rows[i].key) > 0
    ensures CallsFor(d.calls + [call], call.key) > 0
  {
    hide CallsFor;
    CallsForAppended(d.calls, call, call.key);
    forall i | 0 <= i < |d.rows|
      ensures CallsFor(d.calls + [call], d.rows[i].key) > 0
    {
      CallsForAppended(d.calls, call, d.rows[i].key);
    }
  }

  /** Neither uniqueness constraint of the table can ever be violated. */
  lemma CommitKeepsDurable(d: Durable, key: DownstreamKey, payload: string)
    requires DurableOk(d)
    ensures DurableOk(CommitText(d, key, payload).0)
    ensures Find(CommitText(d, key, payload).0.rows, key) == Some(CommitText(d, key, payload).1)
  {
    hide Find, CallsFor, ChargeId;
    var call := CommitCall(key, payload);
    LaterRowsCalled(d, call);
    if Find(d.rows, key).None? {
      var row := TargetRow(ChargeId(|d.rows| + 1), key, payload);
      FindAppended(d.rows, row, key);
      LaterCallsFound(d, row, call);
    } else {
      assert forall c :: c in d.calls + [call] ==> c in d.calls || c == call;
    }
  }

  lemma CountEmpty(key: DownstreamKey)
    ensures Count([], key) == 0
  {
  }

  lemma CountNext(rows: seq<TargetRow>, i: nat, key: DownstreamKey)
    requires i < |rows|
    ensures Count(rows[..i + 1], key) == Count(rows[..i], key) + if rows[i].key == key then 1 else 0
  {
    assert rows[..i + 1][..i] == rows[..i];
  }

  lemma {:induction false} CountByFind(rows: seq<TargetRow>, key: DownstreamKey)
    requires forall i, j :: 0 <= i < j < |rows| ==> rows[i].key != rows[j].key
    ensures Count(rows, key) == if Find(rows, key).Some? then 1 else 0
  {
    if rows == [] {
    } else {
      var last := |rows| - 1;
      CountByFind(rows[..last], key);
      assert rows == rows[..last] + [rows[last]];
      FindAppended(rows[..last], rows[last], key);
    }
  }

  lemma {:induction false} CalledByFind(d: Durable, calls: seq<CommitCall>, key: DownstreamKey)
    requires forall i :: 0 <= i < |calls| ==> Find(d.rows, calls[i].key).Some?
    requires Find(d.rows, key).None?
    ensures CallsFor(calls, key) == 0
  {
    if calls == [] {
    } else {
      CalledByFind(d, calls[..|calls| - 1], key);
    }
  }

  /** One committed effect per key that was ever called, however often it was. */
  lemma OneRowPerCalledKey(d: Durable, key: DownstreamKey)
    requires DurableOk(d)
    ensures Count(d.rows, key) == if CallsFor(d.calls, key) > 0 then 1 else 0
  {
    hide CallsFor, Find;
    CountByFind(d.rows, key);
    if Find(d.rows, key).Some? {
      var i :| 0 <= i < |d.rows| && d.rows[i].key == key;
    } else {
      CalledByFind(d, d.calls, key);
    }
  }

  /** A repeated commit answers with the same id and changes no committed effect. */
  lemma CommitTwice(d: Durable, key: DownstreamKey, first: string, second: string)
    requires DurableOk(d)
    ensures var (d1, x1) := CommitText(d, key, first);
            var (d2, x2) := CommitText(d1, key, second);
            x1 == x2 && d1.rows == d2.rows && |d2.calls| == |d.calls| + 2
  {
    CommitKeepsDurable(d, key, first);
  }

  // ---------------------------------------------------------------- the adapter's answers

  function PayloadOf(effect: Record): PyValue {
    PyDict([Field(NameKey("request_hash"), PyStr(effect.requestHash.text)),
            Field(NameKey("arguments"), effect.request.arguments)])
  }

  lemma PayloadCanonical(effect: Record)
    requires Canonicalizable(effect.request.arguments)
    ensures CanonicalJson(PayloadOf(effect)).Ok?
  {
    assert Canonicalizable(PayloadOf(effect));
  }

  /** What the durable adapter proves about an effect. */
  function DurableVerdict(d: Durable, effect: Record): Verdict {
    if effect.contract.safety == Unsafe then NoProof
    else
      match Find(d.rows, effect.downstreamKey)
      case Some(x) => ProvenCommitted(x)
      case None => if effect.contract.safety == Idempotent then NoProof else ProvenAbsent
  }

  // ---------------------------------------------------------------- the target in place

  class DurableTarget {
    var rows: seq<TargetRow>
    var calls: seq<CommitCall>

    function Value(): Durable
      reads this
    {
      Durable(rows, calls)
    }

    ghost predicate Valid()
      reads this
    {
      DurableOk(Value())
    }

    constructor ()
      ensures Valid() && Value() == EMPTY_DURABLE
    {
      rows, calls := [], [];
    }

    method Select(key: DownstreamKey) returns (found: Option<string>)
      ensures found == Find(rows, key)
    {
      var i := 0;
      assert rows[0..] == rows;
      while i < |rows|
        invariant 0 <= i <= |rows|
        invariant Find(rows, key) == Find(rows[i..], key)
      {
        assert rows[i..][1..] == rows[i + 1..];
        if rows[i].key == key {
          return Some(rows[i].externalId);
        }
        i := i + 1;
      }
      found := None;
    }

    /** Logs the call, then commits once by key. */
    method Commit(key: DownstreamKey, payload: PyValue) returns (r: Result<string, CanonicalError>)
      requires Valid()
      modifies this
      ensures Valid()
      ensures (Value(), r) == CommitPayload(old(Value()), key, payload)
      ensures r.Ok? <==> CanonicalJson(payload).Ok?
      ensures r.Err? ==> rows == old(rows) && calls == old(calls)
      ensures r.Ok? ==>
                && calls == old(calls) + [CommitCall(key, CanonicalJson(payload).value)]
                && (exists i :: 0 <= i < |rows| && rows[i].key == key && rows[i].externalId == r.value)
                && rows == old(rows) + if exists i :: 0 <= i < |old(rows)| && old(rows)[i].key == key then []
                                       else [TargetRow(r.value, key, CanonicalJson(payload).value)]
    {
      hide DurableOk;
      var text := CanonicalJson(payload);
      if text.Err? {
        return Err(text.error);
      }
      CommitKeepsDurable(Value(), key, text.value);
      calls := calls + [CommitCall(key, text.value)];
      var found := Select(key);
      if found.Some? {
        return Ok(found.value);
      }
      var externalId := ChargeId(|rows| + 1);
      rows := rows + [TargetRow(externalId, key, text.value)];
      assert rows[|rows| - 1].key == key;
      r := Ok(externalId);
    }

    method CountRows(key: DownstreamKey) returns (n: nat)
      requires Valid()
      ensures n == Count(rows, key)
      ensures n == if CallsFor(calls, key) > 0 then 1 else 0
    {
      hide DurableOk, Find, CallsFor, Count;
      OneRowPerCalledKey(Value(), key);
      CountEmpty(key);
      n := 0;
      for i := 0 to |rows|
        invariant rows[..0] == [] && n == Count(rows[..i], key)
      {
        CountNext(rows, i, key);
        if rows[i].key == key {
          n := n + 1;
        }
      }
      assert rows[..|rows|] == rows;
    }

    method CommitCallCount(key: DownstreamKey) returns (n: nat)
      ensures n == CallsFor(calls, key)
    {
      n := 0;
      for i := 0 to |calls|
        invariant n == CallsFor(calls[..i], key)
      {
        assert calls[..i + 1][..i] == calls[..i];
        if calls[i].key == key {
          n := n + 1;
        }
      }
      assert calls[..|calls|] == calls;
    }

    /** The durable adapter's probe. */
    method Probe(effect: Record) returns (verdict: Verdict)
      requires Valid()
      ensures verdict == DurableVerdict(Value(), effect)
      ensures effect.contract.safety in {Reconcilable, Transactional} ==>
                (verdict == ProvenAbsent <==> CallsFor(calls, effect.downstreamKey) == 0)
      ensures var charged := exists i :: 0 <= i < |rows| && rows[i].key == effect.downstreamKey;
              && (verdict == ProvenAbsent <==> effect.contract.safety in {Reconcilable, Transactional} && !charged)
              && (verdict.ProvenCommitted? <==> effect.contract.safety != Unsafe && charged)
      ensures verdict.ProvenCommitted? ==>
                exists i :: 0 <= i < |rows| && rows[i].key == effect.downstreamKey && rows[i].externalId == verdict.externalId
    {
      hide DurableOk;
      OneRowPerCalledKey(Value(), effect.downstreamKey);
      UniqueKeys(Value());
      CountByFind(rows, effect.downstreamKey);
      if effect.contract.safety == Unsafe {
        return NoProof;
      }
      var found := Select(effect.downstreamKey);
      if found.Some? {
        return ProvenCommitted(found.value);
      }
      verdict := if effect.contract.safety == Idempotent then NoProof else ProvenAbsent;
    }
  }

  lemma UniqueKeys(d: Durable)
    requires DurableOk(d)
    ensures forall i, j :: 0 <= i < j < |d.rows| ==> d.rows[i].key != d.rows[j].key
  {
  }
}
