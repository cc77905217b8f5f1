/**
 * At most one charge. While an effect is given up as unknown only once its owner can no longer
 * call the target, an actor may still call only while the record is DISPATCHING at exactly the
 * version that actor holds, and effects waiting to be dispatched have not been charged.
 */
module ProtocolOnce {
  import opened Prelude
  import opened Identity
  import opened Models
  import opened StateMachine
  import opened Ledger
  import opened LedgerProofs
  import opened Target
  import opened Protocol
  import opened ProtocolInvariant
  import opened ProtocolSteps
  import opened ProtocolCalls
  import opened ProtocolTarget
  import opened ProtocolRuns

  // ---------------------------------------------------------------- fencing of pending calls

  ghost predicate IsCurrent(s: System, rec: Record) {
    rec.effectId in s.ledger.entries && rec.version == Current(s, rec.effectId).version
  }

  /** Whoever may still call the target holds the current version. */
  ghost predicate Fenced(s: System) {
    forall a :: a in s.actors && s.actors[a].Calling? ==> IsCurrent(s, s.actors[a].rec)
  }

  /** The record behind a pending call is DISPATCHING. */
  lemma PendingIsDispatching(s: System, a: nat)
    requires Inv(s) && a in s.actors && Owns(s.actors[a]) && IsCurrent(s, s.actors[a].rec)
    ensures s.actors[a].rec == Current(s, s.actors[a].rec.effectId)
    ensures !s.actors[a].Probing? && !s.actors[a].Judging? ==>
              Current(s, s.actors[a].rec.effectId).status == Dispatching
    ensures s.actors[a].Probing? || s.actors[a].Judging? ==>
              Current(s, s.actors[a].rec.effectId).status == Reconciling
  {
    hide LedgerOk, UniqueOwners;
    assert ActorOk(s.ledger, s.actors[a]);
  }

  /** Nobody but its owner writes over the record behind a pending call. */
  lemma OthersCannotWrite(s: System, s': System, k: Kind, b: nat)
    requires Inv(s) && Is(s, s', k) && k.Wrote?
    requires b in s.actors && b != k.a && s.actors[b].Calling? && IsCurrent(s, s.actors[b].rec)
    ensures k.rec.effectId != s.actors[b].rec.effectId
  {
    hide LedgerOk, ActorsOk, MovedLedger, Is;
    WriterFacts(s, s', k);
    PendingIsDispatching(s, b);
    assert Pc(s, k.a).Reporting? ==> !SameVersion(s.actors[k.a].rec, s.actors[b].rec);
  }

  /** A step that is not given to MarkUnknown leaves a pending call's record as it is. */
  lemma PendingKept(s: System, s': System, l: Label, k: Kind, b: nat)
    requires Inv(s) && Is(s, s', k) && Matches(l, k) && OwnerGone(s, l)
    requires b in s.actors && s.actors[b].Calling? && IsCurrent(s, s.actors[b].rec)
    requires k.Wrote? ==> k.a != b
    ensures IsCurrent(s', s.actors[b].rec)
  {
    hide Inv, MayWrite, QuietMove, EntryOk, MoveEntry;
    PendingIsDispatching(s, b);
    if k.Wrote? {
      OthersCannotWrite(s, s', k, b);
    }
  }

  /** Only a started attempt makes a new pending call. */
  lemma NewPending(s: System, s': System, k: Kind, b: nat)
    requires Is(s, s', k) && b in s'.actors && s'.actors[b].Calling?
    ensures (k.Started? && b == k.a) || (b in s.actors && s'.actors[b] == s.actors[b])
    ensures k.Wrote? || k.Called? ==> b != k.a
    ensures k.Started? && b == k.a ==> IsCurrent(s', s'.actors[b].rec)
  {
    hide ActorOk, Truthful, Outcome, RetentionValid, ProbedData, EntryOk, MoveEntry, Commit, ClaimEntry;
  }

  lemma KindFenced(s: System, s': System, l: Label, k: Kind)
    requires Inv(s) && Fenced(s) && Is(s, s', k) && Matches(l, k) && OwnerGone(s, l)
    ensures Fenced(s')
  {
    hide Inv, Is, Matches, OwnerGone;
    forall b | b in s'.actors && s'.actors[b].Calling?
      ensures IsCurrent(s', s'.actors[b].rec)
    {
      NewPending(s, s', k, b);
      if !(k.Started? && b == k.a) {
        PendingKept(s, s', l, k, b);
      }
    }
  }

  // ---------------------------------------------------------------- who expects no charge

  /** Actors that go on only because the effect has not been charged. */
  predicate ExpectsNone(p: Actor) {
    || ((p.Admitted? || p.Calling?) && p.party.Worker?)
    || (p.Reporting? && p.answer.Rejected?)
    || (p.Judging? && p.verdict.ProvenAbsent?)
  }

  predicate Untouched(status: Status) {
    status in {Prepared, Retryable, Cancelled}
  }

  /** Idempotent effects are covered only where AdapterError has its documented meaning. */
  predicate Covered(rec: Record, all: bool) {
    all || rec.contract.safety != Idempotent
  }

  ghost predicate EffectClean(s: System, id: string, all: bool)
    requires id in s.ledger.entries
  {
    && (Covered(Current(s, id), all) && Untouched(Current(s, id).status) ==> Charges(s, id) == {})
    && (Current(s, id).contract.safety != Idempotent ==> |Charges(s, id)| <= 1)
  }

  ghost predicate ActorClean(s: System, p: Actor, all: bool) {
    ExpectsNone(p) && IsCurrent(s, p.rec) && Covered(Current(s, p.rec.effectId), all) ==>
      Charges(s, p.rec.effectId) == {}
  }

  ghost predicate Clean(s: System, all: bool) {
    && (forall id :: id in s.ledger.entries ==> EffectClean(s, id, all))
    && (forall a :: a in s.actors ==> ActorClean(s, s.actors[a], all))
  }

  lemma StartClean(secret: string, now: int, all: bool)
    ensures Fenced(Start(secret, now)) && Clean(Start(secret, now), all)
  {
  }

  // ---------------------------------------------------------------- steps without a call

  /** What a step other than a call must show for every effect and every actor. */
  ghost predicate EffectStepOk(s: System, s': System, id: string, all: bool)
    requires id in s'.ledger.entries
  {
    && (id !in s.ledger.entries ==> Charges(s', id) == {})
    && (id in s.ledger.entries && Current(s', id).version != Current(s, id).version ==>
          Untouched(Current(s', id).status) && Covered(Current(s, id), all) ==> Charges(s, id) == {})
  }

  ghost predicate ActorStepOk(s: System, s': System, was: Actor, p: Actor, all: bool) {
    ExpectsNone(p) && IsCurrent(s', p.rec) && Covered(Current(s', p.rec.effectId), all) ==>
      || (p.rec.effectId in s.ledger.entries && Charges(s, p.rec.effectId) == {})
      || (p == was && IsCurrent(s, p.rec))
  }

  lemma CleanFrame(s: System, s': System, all: bool)
    requires Inv(s) && Clean(s, all)
    requires Grows(s.ledger, s'.ledger) && s'.target.charges == s.target.charges
    requires forall id :: id in s'.ledger.entries ==> EffectStepOk(s, s', id, all)
    requires forall b :: b in s'.actors ==> ActorStepOk(s, s', Pc(s, b), s'.actors[b], all)
    ensures Clean(s', all)
  {
    hide Inv, Grows, ChargesFor;
    forall id | id in s'.ledger.entries
      ensures EffectClean(s', id, all)
    {
      if id in s.ledger.entries {
        SameCharges(s, s', id);
        assert EffectClean(s, id, all);
      }
    }
    forall b | b in s'.actors
      ensures ActorClean(s', s'.actors[b], all)
    {
      var p := s'.actors[b];
      if ExpectsNone(p) && p.rec.effectId in s.ledger.entries {
        SameCharges(s, s', p.rec.effectId);
        assert b in s.actors ==> ActorClean(s, s.actors[b], all);
      }
    }
  }

  lemma SameCharges(s: System, s': System, id: string)
    requires Grows(s.ledger, s'.ledger) && id in s.ledger.entries
    requires s'.target.charges == s.target.charges
    ensures id in s'.ledger.entries && Charges(s', id) == Charges(s, id)
    ensures Current(s', id).version == Current(s, id).version ==> Current(s', id) == Current(s, id)
    ensures SamePinned(Current(s, id), Current(s', id))
  {
    KeyKept(s, s', id);
    assert EntryGrows(s.ledger.entries[id], s'.ledger.entries[id]);
  }

  /** A successful write by an actor keeps charges away from effects that may be dispatched again. */
  lemma WriterClean(s: System, s': System, k: Kind, all: bool)
    requires Inv(s) && Clean(s, all) && Is(s, s', k) && k.Wrote?
    ensures ExpectsNone(k.p) ==> k.p.rec.effectId == k.rec.effectId
    ensures Covered(Current(s, k.rec.effectId), all) && (Untouched(k.target) || ExpectsNone(k.p)) ==>
              Charges(s, k.rec.effectId) == {}
  {
    hide Inv, Is, MoveEntry, ChargesFor;
    WriterFacts(s, s', k);
    EntryIdFact(s, k.rec.effectId);
    MovedIdFact(s.ledger.entries[k.rec.effectId], k.target, k.data, s.clock);
    assert ActorClean(s, Pc(s, k.a), all);
    assert EffectClean(s, k.rec.effectId, all);
  }

  lemma MovedIdFact(e: Entry, target: Status, data: Metadata, now: int)
    ensures var e' := MoveEntry(e, target, data, now);
            e'.record.effectId == e.record.effectId && e'.record.version == e.record.version + 1
            && e'.record.status == target && e'.record.contract == e.record.contract
  {
  }

  /** After a write nobody else holds the effect's current version. */
  lemma OthersOutdated(s: System, s': System, id: string)
    requires Inv(s) && id in s.ledger.entries && id in s'.ledger.entries
    requires Current(s', id).version > Current(s, id).version
    ensures forall b :: b in s.actors && ExpectsNone(s.actors[b]) && s.actors[b].rec.effectId == id ==>
              !IsCurrent(s', s.actors[b].rec)
  {
    forall b | b in s.actors && ExpectsNone(s.actors[b]) && s.actors[b].rec.effectId == id
      ensures !IsCurrent(s', s.actors[b].rec)
    {
      OwnerSnap(s, b);
    }
  }

  lemma WroteClean(s: System, s': System, k: Kind, all: bool)
    requires Inv(s) && Clean(s, all) && Is(s, s', k) && k.Wrote?
    ensures Clean(s', all)
  {
    hide Inv, Clean, MayWrite, ChargesFor, Grows, Covered, Untouched, MoveEntry, ExpectsNone;
    KindGrows(s, s', k);
    var id := k.rec.effectId;
    WriterClean(s, s', k, all);
    MovedIdFact(s.ledger.entries[id], k.target, k.data, s.clock);
    OthersOutdated(s, s', id);
    CoveredPinned(Current(s, id), Current(s', id), all);
    CleanFrame(s, s', all);
  }

  lemma CoveredPinned(r: Record, r': Record, all: bool)
    requires r.contract == r'.contract
    ensures Covered(r, all) == Covered(r', all)
  {
  }

  lemma MarkedClean(s: System, s': System, k: Kind, all: bool)
    requires Inv(s) && Clean(s, all) && Is(s, s', k) && k.Marked?
    ensures Clean(s', all)
  {
    hide Inv, Clean, ChargesFor, Grows, Covered, MoveEntry, ExpectsNone;
    KindGrows(s, s', k);
    MovedIdFact(s.ledger.entries[k.id], OutcomeUnknown, ReasonData("stale_dispatching_worker_died"), s.clock);
    OthersOutdated(s, s', k.id);
    CleanFrame(s, s', all);
  }

  /** Claims move versions of effects that wait uncharged, and the queue expects nothing yet. */
  lemma BatchClean(s: System, s': System, k: Kind, all: bool)
    requires Inv(s) && Clean(s, all) && Is(s, s', k) && k.Batch?
    ensures Clean(s', all)
  {
    hide Inv, ChargesFor, Grows, Covered, ClaimedRecords, ActorClean;
    KindGrows(s, s', k);
    forall id | id in s'.ledger.entries
      ensures EffectStepOk(s, s', id, all)
    {
      assert EffectClean(s, id, all);
    }
    forall id | id in k.ids
      ensures forall b :: b in s.actors && ExpectsNone(s.actors[b]) && s.actors[b].rec.effectId == id ==>
                !IsCurrent(s', s.actors[b].rec)
    {
      OthersOutdated(s, s', id);
    }
    CleanFrame(s, s', all);
  }

  /** An actor that comes to expect no charge without writing has just seen a truthful probe. */
  lemma QuietExpects(s: System, a: nat, p: Actor, all: bool)
    requires Inv(s) && QuietMove(s, Pc(s, a), p) && ExpectsNone(p)
    ensures p.rec.effectId in s.ledger.entries && Charges(s, p.rec.effectId) == {}
  {
    hide LedgerOk, UniqueOwners, ChargesFor;
    assert ActorOk(s.ledger, Pc(s, a));
  }

  lemma QuietClean(s: System, s': System, k: Kind, all: bool)
    requires Inv(s) && Clean(s, all) && Is(s, s', k) && k.Quiet?
    ensures Clean(s', all)
  {
    hide Inv, Clean, ChargesFor, Covered, QuietMove, ExpectsNone;
    UnchangedGrows(s.ledger);
    if ExpectsNone(k.p) {
      QuietExpects(s, k.a, k.p, all);
    }
    CleanFrame(s, s', all);
  }

  lemma StartedClean(s: System, s': System, k: Kind, all: bool)
    requires Inv(s) && Clean(s, all) && Is(s, s', k) && k.Started?
    ensures Clean(s', all)
  {
    hide Inv, ChargesFor, Grows, Covered;
    KindGrows(s, s', k);
    assert Current(s', Pc(s, k.a).rec.effectId) == Current(s, Pc(s, k.a).rec.effectId);
    assert ActorClean(s, Pc(s, k.a), all);
    CleanFrame(s, s', all);
  }

  lemma StillClean(s: System, s': System, k: Kind, all: bool)
    requires Inv(s) && TargetInv(s) && Clean(s, all) && Is(s, s', k)
    requires k.Nothing? || k.Ticked? || k.Forgot? || k.Submitted?
    ensures Clean(s', all)
  {
    hide Inv, Clean, ChargesFor, Grows, Covered, EntryOk, TargetInv;
    KindGrows(s, s', k);
    if k.Submitted? {
      FreshKeyUncharged(s, s', k, k.id);
      KnownOwners(s);
    }
    CleanFrame(s, s', all);
  }

  lemma KnownOwners(s: System)
    requires Inv(s)
    ensures forall b :: b in s.actors && ExpectsNone(s.actors[b]) ==> s.actors[b].rec.effectId in s.ledger.entries
  {
    hide LedgerOk, UniqueOwners;
    forall b | b in s.actors && ExpectsNone(s.actors[b])
      ensures s.actors[b].rec.effectId in s.ledger.entries
    {
      assert ActorOk(s.ledger, s.actors[b]);
    }
  }

  // ---------------------------------------------------------------- the call itself

  /** A fenced call finds a worker's effect uncharged and leaves every other effect alone. */
  lemma CalledClean(s: System, s': System, l: Label, k: Kind, all: bool)
    requires Inv(s) && TargetInv(s) && Fenced(s) && Clean(s, all) && Is(s, s', k) && k.Called? && Matches(l, k)
    requires all ==> ProvenNonCommit(s, l)
    ensures Clean(s', all)
  {
    hide Is, ChargesFor, Covered, Untouched, TargetInv, LedgerOk, UniqueOwners, Commit, SnapOk, Clean;
    CalledShape(s, s', k);
    var p := Pc(s, k.a);
    PendingIsDispatching(s, k.a);
    forall id | id in s'.ledger.entries
      ensures EffectClean(s', id, all)
    {
      CalledEffectClean(s, s', k, id, all);
    }
    forall b | b in s'.actors
      ensures ActorClean(s', s'.actors[b], all)
    {
      if b == k.a {
        CallerClean(s, s', l, k, all);
      } else {
        BystanderClean(s, s', k, b, all);
      }
    }
    assert Clean(s', all) by {
      CleanIntro(s', all);
    }
  }

  lemma CleanIntro(s: System, all: bool)
    requires forall id :: id in s.ledger.entries ==> EffectClean(s, id, all)
    requires forall a :: a in s.actors ==> ActorClean(s, s.actors[a], all)
    ensures Clean(s, all)
  {
    hide EffectClean, ActorClean;
  }

  /** A call under one key does not touch another effect's charges. */
  lemma OtherChargesKept(s: System, s': System, k: Kind, id: string)
    requires Inv(s) && TargetInv(s) && Is(s, s', k) && k.Called? && id in s.ledger.entries
    requires Pc(s, k.a).Calling? && id != Pc(s, k.a).rec.effectId
    ensures id in s'.ledger.entries && Charges(s', id) == Charges(s, id)
  {
    hide Is, ChargesFor, TargetInv, LedgerOk, UniqueOwners, Commit;
    CalledShape(s, s', k);
    TargetOkFact(s);
    var p := Pc(s, k.a);
    assert ActorOk(s.ledger, p);
    CommitKeepsTarget(s.target, p.rec, Dedupes(p.rec.contract.safety), s.clock);
    if KeyOf(s, id) == p.rec.downstreamKey {
      KeysApart(s, id, p.rec.effectId);
    }
  }

  /** What a call does to its own effect's charges. */
  lemma OwnCharges(s: System, s': System, k: Kind)
    requires Inv(s) && TargetInv(s) && Is(s, s', k) && k.Called?
    ensures var p, q := Pc(s, k.a), Pc(s', k.a);
            && p.Calling? && q.Reporting?
            && p.rec.effectId in s.ledger.entries && p.rec.effectId in s'.ledger.entries
            && var before, after := Charges(s, p.rec.effectId), Charges(s', p.rec.effectId);
            && (before == {} ==> |after| <= 1)
            && (q.answer.Rejected? ==> after == before && k.delivery.Refuse?)
  {
    hide Is, ChargesFor, TargetInv, LedgerOk, UniqueOwners, Commit;
    CalledShape(s, s', k);
    CalledAnswer(s, s', k);
    TargetOkFact(s);
    var p := Pc(s, k.a);
    assert ActorOk(s.ledger, p);
    NoDrift(s, k.a);
    CommitCharges(s.target, p.rec, Dedupes(p.rec.contract.safety), s.clock);
  }

  lemma CalledEffectClean(s: System, s': System, k: Kind, id: string, all: bool)
    requires Inv(s) && TargetInv(s) && Fenced(s) && Clean(s, all) && Is(s, s', k) && k.Called?
    requires id in s'.ledger.entries
    ensures EffectClean(s', id, all)
  {
    hide Is, ChargesFor, Covered, TargetInv, LedgerOk, UniqueOwners, Commit, SnapOk, SamePinned;
    CalledShape(s, s', k);
    var p := Pc(s, k.a);
    PendingIsDispatching(s, k.a);
    assert EffectClean(s, id, all);
    if id == p.rec.effectId {
      OwnCharges(s, s', k);
      assert ActorClean(s, p, all);
      assert ActorOk(s.ledger, p);
      NonIdempotentCovered(p.rec, all);
    } else {
      OtherChargesKept(s, s', k, id);
    }
  }

  lemma NonIdempotentCovered(rec: Record, all: bool)
    ensures rec.contract.safety != Idempotent ==> Covered(rec, all)
  {
  }

  lemma CallerClean(s: System, s': System, l: Label, k: Kind, all: bool)
    requires Inv(s) && TargetInv(s) && Fenced(s) && Clean(s, all) && Is(s, s', k) && k.Called? && Matches(l, k)
    requires all ==> ProvenNonCommit(s, l)
    ensures k.a in s'.actors && ActorClean(s', s'.actors[k.a], all)
  {
    hide Is, ChargesFor, TargetInv, LedgerOk, UniqueOwners, Commit, SnapOk;
    CalledShape(s, s', k);
    OwnCharges(s, s', k);
    var p := Pc(s, k.a);
    PendingIsDispatching(s, k.a);
    assert ActorClean(s, p, all);
    assert ActorOk(s.ledger, p);
  }

  lemma BystanderClean(s: System, s': System, k: Kind, b: nat, all: bool)
    requires Inv(s) && TargetInv(s) && Fenced(s) && Clean(s, all) && Is(s, s', k) && k.Called?
    requires b in s'.actors && b != k.a
    ensures ActorClean(s', s'.actors[b], all)
  {
    hide Is, ChargesFor, Covered, TargetInv, LedgerOk, Commit, ActorOk;
    CalledShape(s, s', k);
    var q := s'.actors[b];
    assert b in s.actors && ActorClean(s, q, all);
    if ExpectsNone(q) && IsCurrent(s', q.rec) {
      assert !SameVersion(s.actors[b].rec, s.actors[k.a].rec);
      OtherChargesKept(s, s', k, q.rec.effectId);
    }
  }

  lemma NextKeepsOnce(s: System, l: Label, all: bool)
    requires Sound(s) && Fenced(s) && Clean(s, all) && OwnerGone(s, l)
    requires all ==> ProvenNonCommit(s, l)
    ensures Fenced(Next(s, l)) && Clean(Next(s, l), all)
  {
    hide Inv, TargetInv, CallsOk, ChargedByCalls, Fenced, Clean, Next, Is, OwnerGone, ProvenNonCommit, Matches;
    var k := Classify(s, l);
    var s' := Next(s, l);
    KindFenced(s, s', l, k);
    match k
    case Wrote(_, _, _, _, _) => WroteClean(s, s', k, all);
    case Marked(_) => MarkedClean(s, s', k, all);
    case Batch(_, _, _, _, _) => BatchClean(s, s', k, all);
    case Quiet(_, _) => QuietClean(s, s', k, all);
    case Started(_) => StartedClean(s, s', k, all);
    case Called(_, _) => CalledClean(s, s', l, k, all);
    case _ => StillClean(s, s', k, all);
  }
}
