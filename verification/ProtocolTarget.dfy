/**
 * What the ledger and the target know of each other on every run: charges belong to known effects
 * and carry their pinned hash, there are never more charges than calls, confirmed answers name
 * real charges, and a deduplicating target that forgets nothing charges once.
 */
module ProtocolTarget {
  import opened Prelude
  import Json
  import opened Identity
  import opened Models
  import opened StateMachine
  import opened Ledger
  import opened LedgerProofs
  import opened Target
  import opened Protocol
  import opened ProtocolInvariant
  import opened ProtocolSteps

  function KeyOf(s: System, id: string): DownstreamKey
    requires id in s.ledger.entries
  {
    s.ledger.entries[id].record.downstreamKey
  }

  /** The charges of an effect. */
  function Charges(s: System, id: string): set<string>
    requires id in s.ledger.entries
  {
    ChargesFor(s.target, KeyOf(s, id))
  }

  /** A charge was made for this effect: its key, its pinned hash, after its creation. */
  ghost predicate Home(s: System, c: Charge, id: string) {
    && id in s.ledger.entries
    && KeyOf(s, id) == c.downstreamKey
    && Current(s, id).requestHash == c.requestHash
    && Current(s, id).createdAt <= c.committedAt <= s.clock
  }

  ghost predicate HasHome(s: System, c: Charge) {
    exists id :: Home(s, c, id)
  }

  ghost predicate AnswerOk(t: Target, p: Actor) {
    && (p.Reporting? && p.answer.Confirmed? ==> p.answer.externalId in ChargesFor(t, p.rec.downstreamKey))
    && (p.Judging? && p.verdict.ProvenCommitted? ==> p.verdict.externalId in ChargesFor(t, p.rec.downstreamKey))
  }

  ghost predicate TargetInv(s: System) {
    && TargetOk(s.target)
    && (forall x :: x in s.target.charges ==> HasHome(s, s.target.charges[x]))
    && (forall id :: id in s.ledger.entries ==> Current(s, id).createdAt <= s.clock)
    && (forall a :: a in s.actors ==> AnswerOk(s.target, s.actors[a]))
  }

  /** Homes are unique, so a charge under an effect's key is at home there. */
  lemma HomeOf(s: System, x: string, id: string)
    requires Inv(s) && TargetInv(s) && id in s.ledger.entries
    requires x in Charges(s, id)
    ensures Home(s, s.target.charges[x], id)
  {
    var c := s.target.charges[x];
    assert HasHome(s, c);
    var id' :| Home(s, c, id');
    DistinctEffectsDistinctKeys(s.ledger, id, id');
  }

  // ---------------------------------------------------------------- frames

  /** The target stands still while ledger, clock and actors advance. */
  lemma TargetFrame(s: System, s': System)
    requires TargetInv(s) && Grows(s.ledger, s'.ledger) && s'.clock >= s.clock
    requires s'.target.charges == s.target.charges && TargetOk(s'.target)
    requires forall id :: id in s'.ledger.entries && id !in s.ledger.entries ==>
               s'.ledger.entries[id].record.createdAt <= s'.clock
    requires forall b :: b in s'.actors ==> AnswerOk(s'.target, s'.actors[b])
    ensures TargetInv(s')
  {
    hide TargetOk, AnswerOk;
    forall x | x in s'.target.charges
      ensures HasHome(s', s'.target.charges[x])
    {
      assert HasHome(s, s.target.charges[x]);
      var id :| Home(s, s.target.charges[x], id);
      assert EntryGrows(s.ledger.entries[id], s'.ledger.entries[id]);
      assert Home(s', s'.target.charges[x], id);
    }
    forall id | id in s'.ledger.entries
      ensures Current(s', id).createdAt <= s'.clock
    {
      if id in s.ledger.entries {
        assert EntryGrows(s.ledger.entries[id], s'.ledger.entries[id]);
      }
    }
  }

  /** The ledger of every step grows, and new effects are created now. */
  lemma KindGrows(s: System, s': System, k: Kind)
    requires Inv(s) && Is(s, s', k)
    ensures Grows(s.ledger, s'.ledger) && s'.clock >= s.clock
    ensures forall id :: id in s'.ledger.entries && id !in s.ledger.entries ==>
              s'.ledger.entries[id].record.createdAt <= s'.clock
    ensures !k.Called? && !k.Forgot? ==> s'.target == s.target
    ensures !k.Called? ==> s'.calls == s.calls && s'.target.charges == s.target.charges
  {
    hide ActorsOk, UniqueOwners, MayWrite, QuietMove, MoveEntry, ClaimEntry, AttemptEntry, EntryOk;
    UnchangedGrows(s.ledger);
    match k
    case Submitted(id, e) => InsertKeepsLedger(s.ledger, id, e);
    case Batch(a, workerId, now, ids, leaseFor) => ClaimAllKeepsLedger(s.ledger, ids, workerId, now, leaseFor);
    case Wrote(a, rec, target, data, p) => MovedGrows(s, rec.effectId, target, data);
    case Marked(id) => MovedGrows(s, id, OutcomeUnknown, ReasonData("stale_dispatching_worker_died"));
    case Started(a) =>
      var id := Pc(s, a).rec.effectId;
      EntryFacts(s.ledger, id);
      AttemptKeepsEntry(s.ledger.secret, id, s.ledger.entries[id], PartyName(Pc(s, a).party), s.clock);
      UpdateKeepsLedger(s.ledger, id, s'.ledger.entries[id]);
    case _ =>
  }

  lemma MovedGrows(s: System, id: string, target: Status, data: Metadata)
    requires Inv(s) && id in s.ledger.entries && Allowed(Current(s, id).status, target)
    ensures Grows(s.ledger, MovedLedger(s, id, target, data))
    ensures LedgerOk(MovedLedger(s, id, target, data))
  {
    hide EntryOk, ActorsOk, UniqueOwners, MoveEntry, IdentityOk, OrderOk, EntryGrows;
    EntryFacts(s.ledger, id);
    MoveKeepsEntry(s.ledger.secret, id, s.ledger.entries[id], target, data, s.clock);
    UpdateKeepsLedger(s.ledger, id, MoveEntry(s.ledger.entries[id], target, data, s.clock));
  }

  // ---------------------------------------------------------------- steps

  lemma ForgetKeepsTarget(t: Target, key: DownstreamKey)
    requires TargetOk(t)
    ensures TargetOk(ForgetKey(t, key))
  {
  }

  /** Actors that gain no answer. */
  lemma KindAnswers(s: System, s': System, k: Kind)
    requires TargetInv(s) && Is(s, s', k) && !k.Called?
    ensures forall b :: b in s'.actors ==> AnswerOk(s'.target, s'.actors[b])
  {
    hide TargetOk, HasHome, MoveEntry, Outcome, ClaimEntry, AttemptEntry, ActorOk;
    assert s'.target.charges == s.target.charges;
    forall b | b in s'.actors
      ensures AnswerOk(s'.target, s'.actors[b])
    {
      if b in s.actors {
        assert AnswerOk(s.target, s.actors[b]);
      }
    }
  }

  lemma QuietTarget(s: System, s': System, k: Kind)
    requires Inv(s) && TargetInv(s) && Is(s, s', k) && !k.Called?
    ensures TargetInv(s')
  {
    hide Inv, TargetOk, HasHome, AnswerOk, Grows;
    KindGrows(s, s', k);
    KindAnswers(s, s', k);
    if k.Forgot? {
      ForgetKeepsTarget(s.target, k.key);
    }
    hide Is;
    TargetFrame(s, s');
  }

  /** What one adapter call does to ledger, log and target. */
  lemma CalledShape(s: System, s': System, k: Kind)
    requires Is(s, s', k) && k.Called?
    ensures k.a in s.actors && Pc(s, k.a).Calling?
    ensures s'.ledger == s.ledger && s'.clock == s.clock
    ensures s'.calls == s.calls + [TargetCall(Pc(s, k.a).rec.effectId, Pc(s, k.a).rec.version)]
    ensures var p := Pc(s, k.a);
            var (t', r) := Commit(s.target, p.rec, Dedupes(p.rec.contract.safety), s.clock);
            s'.target == if k.delivery.Land? then t' else s.target
    ensures s'.actors == s.actors[k.a := Pc(s', k.a)]
    ensures var p, q := Pc(s, k.a), Pc(s', k.a);
            q.Reporting? && q.party == p.party && q.rec == p.rec && q.attemptId == p.attemptId && q.rest == p.rest
  {
    hide Commit;
  }

  /** The answer a call leaves with. */
  lemma CalledAnswer(s: System, s': System, k: Kind)
    requires Is(s, s', k) && k.Called?
    ensures Pc(s, k.a).Calling? && Pc(s', k.a).Reporting?
    ensures var r := Commit(s.target, Pc(s, k.a).rec, Dedupes(Pc(s, k.a).rec.contract.safety), s.clock).1;
            && (Pc(s', k.a).answer.Confirmed? ==>
                  k.delivery.Land? && r.Ok? && Pc(s', k.a).answer.externalId == r.value.externalId)
            && (Pc(s', k.a).answer.Rejected? ==> k.delivery.Refuse? || (k.delivery.Land? && r.Err?))
  {
    hide Commit;
    CalledShape(s, s', k);
    var p := Pc(s, k.a);
    var r := Commit(s.target, p.rec, Dedupes(p.rec.contract.safety), s.clock).1;
    match k.delivery
    case Land(reply) =>
      if r.Ok? {
        assert Pc(s', k.a).answer == AnswerTo(reply, r.value.externalId);
      } else {
        assert Pc(s', k.a).answer == Rejected("AdapterError");
      }
    case _ =>
  }

  /** Under a pinned hash the target's drift rejection never fires. */
  lemma NoDrift(s: System, a: nat)
    requires Inv(s) && TargetInv(s) && a in s.actors && s.actors[a].Calling?
    ensures Commit(s.target, s.actors[a].rec, Dedupes(s.actors[a].rec.contract.safety), s.clock).1.Ok?
  {
    var rec := s.actors[a].rec;
    assert ActorOk(s.ledger, s.actors[a]);
    assert SnapOk(s.ledger, rec);
    hide Inv, TargetInv, ActorOk, Home, Argument;
    var existing := FirstCharge(s.target, rec.downstreamKey);
    if existing.Some? {
      FirstChargeIsCharge(s.target, rec.downstreamKey);
      TargetOkFact(s);
      HomeOf(s, Remembered(s.target, rec.downstreamKey)[0], rec.effectId);
      HomeHash(s, existing.value, rec.effectId);
    }
  }

  lemma HomeHash(s: System, c: Charge, id: string)
    requires Home(s, c, id)
    ensures c.requestHash == Current(s, id).requestHash
  {
  }

  lemma TargetOkFact(s: System)
    requires TargetInv(s)
    ensures TargetOk(s.target)
  {
  }

  lemma FirstChargeIsCharge(t: Target, key: DownstreamKey)
    requires FirstCharge(t, key).Some?
    ensures Remembered(t, key) != [] && Remembered(t, key)[0] in t.charges
    ensures FirstCharge(t, key).value == t.charges[Remembered(t, key)[0]]
    ensures TargetOk(t) ==> Remembered(t, key)[0] in ChargesFor(t, key)
  {
  }

  lemma CalledTarget(s: System, s': System, k: Kind)
    requires Inv(s) && TargetInv(s) && Is(s, s', k) && k.Called?
    ensures TargetInv(s')
  {
    hide Is, TargetOk, AnswerOk, LedgerOk, UniqueOwners, Commit;
    CalledShape(s, s', k);
    var p := Pc(s, k.a);
    assert ActorOk(s.ledger, p);
    assert SnapOk(s.ledger, p.rec);
    CommitKeepsTarget(s.target, p.rec, Dedupes(p.rec.contract.safety), s.clock);
    CalledCharges(s, s', k);
    forall x | x in s'.target.charges
      ensures HasHome(s', s'.target.charges[x])
    {
      if x in s.target.charges {
        assert HasHome(s, s.target.charges[x]);
        var id :| Home(s, s.target.charges[x], id);
        assert Home(s', s'.target.charges[x], id);
      } else {
        assert Home(s', s'.target.charges[x], p.rec.effectId);
      }
    }
    CalledAnswers(s, s', k);
  }

  /** Any charge a call adds is the caller's own. */
  lemma CalledCharges(s: System, s': System, k: Kind)
    requires TargetOk(s.target) && Is(s, s', k) && k.Called?
    ensures Pc(s, k.a).Calling?
    ensures forall x :: x in s'.target.charges && x !in s.target.charges ==>
              s'.target.charges[x] == NewCharge(s.target, Pc(s, k.a).rec, s.clock)
    ensures forall x :: x in s.target.charges ==>
              x in s'.target.charges && s'.target.charges[x] == s.target.charges[x]
  {
    hide Is, TargetOk, Commit;
    CalledShape(s, s', k);
    var p := Pc(s, k.a);
    CommitKeepsTarget(s.target, p.rec, Dedupes(p.rec.contract.safety), s.clock);
    CommitAdds(s.target, p.rec, Dedupes(p.rec.contract.safety), s.clock);
  }

  lemma CalledAnswers(s: System, s': System, k: Kind)
    requires TargetInv(s) && Is(s, s', k) && k.Called?
    ensures forall b :: b in s'.actors ==> AnswerOk(s'.target, s'.actors[b])
  {
    hide Is, TargetOk, Commit, HasHome;
    CalledShape(s, s', k);
    CalledAnswer(s, s', k);
    CalledCharges(s, s', k);
    var p := Pc(s, k.a);
    CommitCharges(s.target, p.rec, Dedupes(p.rec.contract.safety), s.clock);
    forall b | b in s'.actors
      ensures AnswerOk(s'.target, s'.actors[b])
    {
      if b != k.a {
        assert AnswerOk(s.target, s.actors[b]);
      }
    }
  }

  lemma NextKeepsTarget(s: System, l: Label)
    requires Inv(s) && TargetInv(s)
    ensures TargetInv(Next(s, l))
  {
    hide Inv, TargetInv, Next, Is;
    var k := Classify(s, l);
    if k.Called? {
      CalledTarget(s, Next(s, l), k);
    } else {
      QuietTarget(s, Next(s, l), k);
    }
  }

  // ---------------------------------------------------------------- charges never exceed calls

  function CallCount(calls: seq<TargetCall>, id: string): nat {
    if calls == [] then 0
    else
      var last := |calls| - 1;
      CallCount(calls[..last], id) + if calls[last].effectId == id then 1 else 0
  }

  lemma CallCountAppended(calls: seq<TargetCall>, c: TargetCall, id: string)
    ensures CallCount(calls + [c], id) == CallCount(calls, id) + if c.effectId == id then 1 else 0
  {
    assert (calls + [c])[..|calls|] == calls;
  }

  ghost predicate ChargedByCalls(s: System) {
    forall id :: id in s.ledger.entries ==> |Charges(s, id)| <= CallCount(s.calls, id)
  }

  lemma NextKeepsCharged(s: System, l: Label)
    requires Inv(s) && TargetInv(s) && ChargedByCalls(s)
    ensures ChargedByCalls(Next(s, l))
  {
    hide Inv, TargetInv, Next, Is, ChargesFor;
    var k := Classify(s, l);
    var s' := Next(s, l);
    KindGrows(s, s', k);
    forall id | id in s'.ledger.entries
      ensures |Charges(s', id)| <= CallCount(s'.calls, id)
    {
      if id in s.ledger.entries {
        KeyKept(s, s', id);
        if k.Called? {
          CalledCount(s, s', k, id);
        } else {
          SameChargesFor(s.target, s'.target, KeyOf(s, id));
        }
      } else {
        FreshKeyUncharged(s, s', k, id);
      }
    }
  }

  lemma KeyKept(s: System, s': System, id: string)
    requires Grows(s.ledger, s'.ledger) && id in s.ledger.entries
    ensures id in s'.ledger.entries && KeyOf(s', id) == KeyOf(s, id)
    ensures SamePinned(Current(s, id), Current(s', id))
  {
    assert EntryGrows(s.ledger.entries[id], s'.ledger.entries[id]);
  }

  lemma SameChargesFor(t: Target, t': Target, key: DownstreamKey)
    requires t.charges == t'.charges
    ensures ChargesFor(t, key) == ChargesFor(t', key)
  {
  }

  lemma CalledCount(s: System, s': System, k: Kind, id: string)
    requires Inv(s) && TargetInv(s) && Is(s, s', k) && k.Called? && id in s.ledger.entries
    requires |Charges(s, id)| <= CallCount(s.calls, id)
    ensures id in s'.ledger.entries && |Charges(s', id)| <= CallCount(s'.calls, id)
  {
    hide Is, Commit, TargetInv, LedgerOk, UniqueOwners, ChargesFor, CallCount;
    CalledShape(s, s', k);
    TargetOkFact(s);
    var p := Pc(s, k.a);
    assert ActorOk(s.ledger, p);
    assert SnapOk(s.ledger, p.rec);
    var dedupe := Dedupes(p.rec.contract.safety);
    CommitKeepsTarget(s.target, p.rec, dedupe, s.clock);
    CommitCharges(s.target, p.rec, dedupe, s.clock);
    CallCountAppended(s.calls, TargetCall(p.rec.effectId, p.rec.version), id);
    if KeyOf(s, id) == p.rec.downstreamKey {
      KeysApart(s, id, p.rec.effectId);
    }
  }

  lemma KeysApart(s: System, id: string, id': string)
    requires Inv(s) && id in s.ledger.entries && id' in s.ledger.entries && KeyOf(s, id) == KeyOf(s, id')
    ensures id == id'
  {
    DistinctEffectsDistinctKeys(s.ledger, id, id');
  }

  lemma FreshKeyUncharged(s: System, s': System, k: Kind, id: string)
    requires Inv(s) && TargetInv(s) && Is(s, s', k)
    requires id in s'.ledger.entries && id !in s.ledger.entries
    ensures Charges(s', id) == {}
  {
    hide TargetInv, MoveEntry, ClaimEntry, AttemptEntry, ActorsOk, UniqueOwners, LedgerOk, ActorOk, EntryOk,
         ChargesFor, OperationOf;
    assert k.Submitted? && k.id == id;
    InsertKeepsLedger(s.ledger, id, k.e);
    UnknownKeyUncharged(s, s', id);
  }

  lemma UnknownKeyUncharged(s: System, s': System, id: string)
    requires TargetInv(s) && s'.target == s.target
    requires LedgerOk(s'.ledger) && Grows(s.ledger, s'.ledger)
    requires id in s'.ledger.entries && id !in s.ledger.entries
    ensures Charges(s', id) == {}
  {
    hide LedgerOk, Grows;
    forall x | x in s'.target.charges
      ensures s'.target.charges[x].downstreamKey != KeyOf(s', id)
    {
      assert HasHome(s, s.target.charges[x]);
      var home :| Home(s, s.target.charges[x], home);
      KeyKept(s, s', home);
      if KeyOf(s', id) == KeyOf(s', home) {
        DistinctEffectsDistinctKeys(s'.ledger, id, home);
      }
    }
  }

  // ---------------------------------------------------------------- deduplicating targets

  /** The target remembers every charge, and charged each deduplicated effect at most once. */
  ghost predicate DedupedOnce(s: System) {
    && RemembersAll(s.target)
    && forall id :: id in s.ledger.entries && Dedupes(Current(s, id).contract.safety) ==> |Charges(s, id)| <= 1
  }

  lemma NextKeepsDeduped(s: System, l: Label)
    requires Inv(s) && TargetInv(s) && DedupedOnce(s) && NeverForgets(s, l)
    ensures DedupedOnce(Next(s, l))
  {
    hide Inv, TargetInv, Next, Is, ChargesFor, RemembersAll;
    var k := Classify(s, l);
    var s' := Next(s, l);
    KindGrows(s, s', k);
    if k.Called? {
      CalledRemembers(s, s', k);
    }
    forall id | id in s'.ledger.entries && Dedupes(Current(s', id).contract.safety)
      ensures |Charges(s', id)| <= 1
    {
      if id in s.ledger.entries {
        KeyKept(s, s', id);
        if k.Called? {
          CalledOnce(s, s', k, id);
        } else {
          SameChargesFor(s.target, s'.target, KeyOf(s, id));
        }
      } else {
        FreshKeyUncharged(s, s', k, id);
      }
    }
  }

  lemma CalledRemembers(s: System, s': System, k: Kind)
    requires TargetInv(s) && RemembersAll(s.target) && Is(s, s', k) && k.Called?
    ensures RemembersAll(s'.target)
  {
    hide Is, RemembersAll, TargetInv, Commit;
    CalledShape(s, s', k);
    TargetOkFact(s);
    var p := Pc(s, k.a);
    CommitKeepsTarget(s.target, p.rec, Dedupes(p.rec.contract.safety), s.clock);
  }

  lemma CalledOnce(s: System, s': System, k: Kind, id: string)
    requires Inv(s) && TargetInv(s) && RemembersAll(s.target) && Is(s, s', k) && k.Called?
    requires id in s.ledger.entries && Dedupes(Current(s, id).contract.safety) && |Charges(s, id)| <= 1
    ensures id in s'.ledger.entries && |Charges(s', id)| <= 1
  {
    hide Is, Commit, TargetInv, LedgerOk, UniqueOwners, ChargesFor, RemembersAll;
    CalledShape(s, s', k);
    TargetOkFact(s);
    var p := Pc(s, k.a);
    assert ActorOk(s.ledger, p);
    assert SnapOk(s.ledger, p.rec);
    var dedupe := Dedupes(p.rec.contract.safety);
    CommitKeepsTarget(s.target, p.rec, dedupe, s.clock);
    CommitCharges(s.target, p.rec, dedupe, s.clock);
    if KeyOf(s, id) == p.rec.downstreamKey {
      KeysApart(s, id, p.rec.effectId);
      if Charges(s, id) != {} {
        RememberedFirst(s.target, KeyOf(s, id));
      }
    }
  }

  /** A remembered key with charges has a first charge. */
  lemma RememberedFirst(t: Target, key: DownstreamKey)
    requires TargetOk(t) && RemembersAll(t) && ChargesFor(t, key) != {}
    ensures FirstCharge(t, key).Some?
  {
    var x :| x in ChargesFor(t, key);
    assert x in Remembered(t, key);
  }
}
