/** Any sequence of submissions: one effect per tenant and operation key, bound to the payload it began with. */
module Reservations {
  import opened Prelude
  import opened Identifiers
  import opened PyValues
  import opened Identity
  import opened Models
  import opened Ledger
  import opened LedgerProofs
  import opened MemoryStore

  datatype Submission = Submission(tenantId: string, request: Request, contract: Contract, now: int)

  /** The store between submissions: its ledger and the number of the next effect. */
  datatype Desk = Desk(ledger: Ledger, next: nat)

  function SubmitOne(d: Desk, s: Submission): (Desk, Result<Reservation, StoreError>) {
    var (l, r) := Reserve(d.ledger, EffectId(d.next), s.tenantId, s.request, s.contract, s.now);
    (Desk(l, if r.Ok? && r.value.created then d.next + 1 else d.next), r)
  }

  /** The store after a sequence of submissions. */
  function SubmitAll(secret: string, submissions: seq<Submission>): Desk {
    if submissions == [] then Desk(EmptyLedger(secret), 1)
    else SubmitOne(SubmitAll(secret, submissions[..|submissions| - 1]), submissions[|submissions| - 1]).0
  }

  /** The reply to submission number i. */
  function ReplyTo(secret: string, submissions: seq<Submission>, i: nat): Result<Reservation, StoreError>
    requires i < |submissions|
  {
    SubmitOne(SubmitAll(secret, submissions[..i]), submissions[i]).1
  }

  function HashOf(s: Submission): Result<Digest, Canonical.CanonicalError> {
    RequestHash(s.request.tool, s.request.arguments, s.contract.name, s.contract.version)
  }

  import Canonical

  function Operation(s: Submission): (string, string) {
    (s.tenantId, s.request.operationKey)
  }

  ghost predicate DeskOk(d: Desk) {
    LedgerOk(d.ledger) && forall id :: id in d.ledger.entries ==> exists n: nat :: n < d.next && id == EffectId(n)
  }

  lemma FreshNext(d: Desk)
    requires DeskOk(d)
    ensures EffectId(d.next) !in d.ledger.entries
  {
    hide LedgerOk, EffectId;
    if EffectId(d.next) in d.ledger.entries {
      var n: nat :| n < d.next && EffectId(d.next) == EffectId(n);
      EffectIdInjective(d.next, n);
    }
  }

  lemma SubmitKeeps(d: Desk, s: Submission)
    requires DeskOk(d)
    ensures DeskOk(SubmitOne(d, s).0) && Grows(d.ledger, SubmitOne(d, s).0.ledger)
  {
    hide LedgerOk, Grows, EffectId;
    FreshNext(d);
    ReserveKeepsLedger(d.ledger, EffectId(d.next), s.tenantId, s.request, s.contract, s.now);
    ReserveEntries(d.ledger, EffectId(d.next), s.tenantId, s.request, s.contract, s.now);
    var d' := SubmitOne(d, s).0;
    forall id | id in d'.ledger.entries
      ensures exists n: nat :: n < d'.next && id == EffectId(n)
    {
      if id in d.ledger.entries {
        var n: nat :| n < d.next && id == EffectId(n);
        assert n < d'.next;
      } else {
        assert d.next < d'.next && id == EffectId(d.next);
      }
    }
  }

  lemma ReserveEntries(l: Ledger, id: string, tenantId: string, request: Request, contract: Contract, now: int)
    ensures var (l', r) := Reserve(l, id, tenantId, request, contract, now);
            l'.entries.Keys == l.entries.Keys + if r.Ok? && r.value.created then {id} else {}
  {
    hide RequestHash, OperationKeyOf;
  }

  lemma {:induction false} AllKeep(secret: string, submissions: seq<Submission>)
    ensures DeskOk(SubmitAll(secret, submissions))
  {
    hide SubmitOne;
    if submissions == [] {
      EmptyLedgerOk(secret);
    } else {
      AllKeep(secret, submissions[..|submissions| - 1]);
      SubmitKeeps(SubmitAll(secret, submissions[..|submissions| - 1]), submissions[|submissions| - 1]);
    }
  }

  lemma {:induction false} LaterGrows(secret: string, submissions: seq<Submission>, i: nat)
    requires i <= |submissions|
    ensures Grows(SubmitAll(secret, submissions[..i]).ledger, SubmitAll(secret, submissions).ledger)
    decreases |submissions|
  {
    hide SubmitOne, Grows, DeskOk;
    if i == |submissions| {
      assert submissions[..i] == submissions;
      UnchangedGrows(SubmitAll(secret, submissions).ledger);
    } else {
      var front := submissions[..|submissions| - 1];
      assert front[..i] == submissions[..i];
      LaterGrows(secret, front, i);
      AllKeep(secret, front);
      SubmitKeeps(SubmitAll(secret, front), submissions[|submissions| - 1]);
      GrowsTransitive(SubmitAll(secret, submissions[..i]).ledger, SubmitAll(secret, front).ledger, SubmitAll(secret, submissions).ledger);
    }
  }

  /** An accepted submission names the effect that holds its operation and its hash. */
  lemma AcceptedHolds(d: Desk, s: Submission)
    requires DeskOk(d) && SubmitOne(d, s).1.Ok?
    ensures var (d', r) := SubmitOne(d, s);
            var e := r.value.effect;
            && HashOf(s) == Ok(e.requestHash)
            && e.effectId in d'.ledger.entries && d'.ledger.entries[e.effectId].record == e
            && OperationOf(e) == Operation(s)
            && (r.value.created <==> Operation(s) !in d.ledger.identity)
            && r.value.replayed == !r.value.created
  {
    hide RequestHash, OperationKeyOf, EntryOk, OrderOk, EffectId;
    FreshNext(d);
    if Operation(s) in d.ledger.identity {
      assert d.ledger.identity[Operation(s)] in d.ledger.entries;
      EntryFacts(d.ledger, d.ledger.identity[Operation(s)]);
    }
  }

  /** The reply to a submission whose operation is already held. */
  lemma ResubmitReply(d: Desk, s: Submission, id: string)
    requires DeskOk(d) && id in d.ledger.entries && OperationOf(d.ledger.entries[id].record) == Operation(s)
    ensures var (d', r) := SubmitOne(d, s);
            && d' == d
            && (r.Ok? <==> HashOf(s) == Ok(d.ledger.entries[id].record.requestHash))
            && (r.Ok? ==> r.value == Reservation(d.ledger.entries[id].record, false, true))
            && (r.Err? && HashOf(s).Ok? ==> r.error.PayloadConflict?)
  {
    hide RequestHash, OperationKeyOf, EntryOk, OrderOk;
    assert d.ledger.identity[Operation(s)] == id;
  }

  /**
   * After an accepted submission, every later one for the same tenant and operation key is answered with
   * that very effect when its payload is the same, and refused without any change when it is not.
   */
  lemma OneEffectPerOperation(secret: string, submissions: seq<Submission>, i: nat, j: nat)
    requires i < j < |submissions| && Operation(submissions[i]) == Operation(submissions[j])
    requires ReplyTo(secret, submissions, i).Ok?
    ensures var first, later := ReplyTo(secret, submissions, i).value.effect, ReplyTo(secret, submissions, j);
            && (later.Ok? <==> HashOf(submissions[j]) == HashOf(submissions[i]))
            && (later.Ok? ==> !later.value.created && later.value.effect.effectId == first.effectId
                              && SamePinned(later.value.effect, first))
            && SubmitAll(secret, submissions[..j + 1]) == SubmitAll(secret, submissions[..j])
  {
    hide SubmitOne, Grows, DeskOk, HashOf, SubmitAll;
    var before, at := SubmitAll(secret, submissions[..i]), SubmitAll(secret, submissions[..j]);
    var first := ReplyTo(secret, submissions, i).value.effect;
    AllKeep(secret, submissions[..i]);
    AcceptedHolds(before, submissions[i]);
    NextPrefix(secret, submissions, i);
    assert submissions[..j][..i + 1] == submissions[..i + 1];
    LaterGrows(secret, submissions[..j], i + 1);
    AllKeep(secret, submissions[..j]);
    HeldLater(SubmitAll(secret, submissions[..i + 1]).ledger, at.ledger, first.effectId);
    ResubmitReply(at, submissions[j], first.effectId);
    NextPrefix(secret, submissions, j);
  }

  lemma HeldLater(l: Ledger, l': Ledger, id: string)
    requires Grows(l, l') && id in l.entries
    ensures id in l'.entries && SamePinned(l.entries[id].record, l'.entries[id].record)
    ensures OperationOf(l'.entries[id].record) == OperationOf(l.entries[id].record)
    ensures l'.entries[id].record.requestHash == l.entries[id].record.requestHash
  {
    assert EntryGrows(l.entries[id], l'.entries[id]);
  }

  lemma NextPrefix(secret: string, submissions: seq<Submission>, i: nat)
    requires i < |submissions|
    ensures SubmitAll(secret, submissions[..i + 1]) == SubmitOne(SubmitAll(secret, submissions[..i]), submissions[i]).0
  {
    hide SubmitOne;
    assert submissions[..i + 1][..i] == submissions[..i];
  }

  /** Same hash means same payload: tool, argument tree and pinned contract version. */
  lemma SameReplyIffSamePayload(secret: string, submissions: seq<Submission>, i: nat, j: nat)
    requires i < j < |submissions| && Operation(submissions[i]) == Operation(submissions[j])
    requires ReplyTo(secret, submissions, i).Ok?
    requires Python(submissions[i].request.arguments) && Python(submissions[j].request.arguments)
    ensures Canonicalizable(submissions[i].request.arguments)
    ensures ReplyTo(secret, submissions, j).Ok? <==>
            var a, b := submissions[i], submissions[j];
            && Canonicalizable(b.request.arguments)
            && a.request.tool == b.request.tool && Tree(a.request.arguments) == Tree(b.request.arguments)
            && a.contract.name == b.contract.name && a.contract.version == b.contract.version
  {
    hide SubmitOne, SubmitAll, RequestHash, DeskOk, Tree, Canonicalizable, Python;
    var a, b := submissions[i], submissions[j];
    OneEffectPerOperation(secret, submissions, i, j);
    AllKeep(secret, submissions[..i]);
    AcceptedHolds(SubmitAll(secret, submissions[..i]), submissions[i]);
    HashExists(a.request.tool, a.request.arguments, a.contract.name, a.contract.version);
    HashExists(b.request.tool, b.request.arguments, b.contract.name, b.contract.version);
    if Canonicalizable(b.request.arguments) {
      SameHashIffSamePayload(a.request.tool, a.request.arguments, a.contract.name, a.contract.version,
                             b.request.tool, b.request.arguments, b.contract.name, b.contract.version);
    }
  }

  /** Accepted submissions of different operations never share an effect or a downstream key. */
  lemma DistinctOperationsApart(secret: string, submissions: seq<Submission>, i: nat, j: nat)
    requires i < j < |submissions| && Operation(submissions[i]) != Operation(submissions[j])
    requires ReplyTo(secret, submissions, i).Ok? && ReplyTo(secret, submissions, j).Ok?
    ensures var a, b := ReplyTo(secret, submissions, i).value.effect, ReplyTo(secret, submissions, j).value.effect;
            a.effectId != b.effectId && a.downstreamKey != b.downstreamKey
  {
    hide SubmitOne, Grows, HashOf, SubmitAll, OperationOf;
    AcceptedLater(secret, submissions, i);
    AcceptedLater(secret, submissions, j);
    var l := SubmitAll(secret, submissions).ledger;
    var a, b := ReplyTo(secret, submissions, i).value.effect, ReplyTo(secret, submissions, j).value.effect;
    AllKeep(secret, submissions);
    if l.entries[a.effectId].record.downstreamKey == l.entries[b.effectId].record.downstreamKey {
      DistinctEffectsDistinctKeys(l, a.effectId, b.effectId);
    }
  }

  lemma AcceptedLater(secret: string, submissions: seq<Submission>, i: nat)
    requires i < |submissions| && ReplyTo(secret, submissions, i).Ok?
    ensures var e, l := ReplyTo(secret, submissions, i).value.effect, SubmitAll(secret, submissions).ledger;
            && e.effectId in l.entries && SamePinned(e, l.entries[e.effectId].record)
            && OperationOf(l.entries[e.effectId].record) == Operation(submissions[i])
  {
    hide SubmitOne, Grows, HashOf, SubmitAll, DeskOk, OperationOf;
    AllKeep(secret, submissions[..i]);
    AcceptedHolds(SubmitAll(secret, submissions[..i]), submissions[i]);
    NextPrefix(secret, submissions, i);
    LaterGrows(secret, submissions, i + 1);
    HeldLater(SubmitAll(secret, submissions[..i + 1]).ledger, SubmitAll(secret, submissions).ledger,
              ReplyTo(secret, submissions, i).value.effect.effectId);
  }
}
