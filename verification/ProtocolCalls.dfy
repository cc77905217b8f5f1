/**
 * Write-ahead and fencing: every target call follows an attempt row of its own, and every attempt
 * row follows an entry into DISPATCHING of its own. From this, unsafe targets are called at most once.
 */
module ProtocolCalls {
  import opened Prelude
  import opened Identifiers
  import opened Models
  import opened StateMachine
  import opened Ledger
  import opened LedgerProofs
  import opened Target
  import opened Protocol
  import opened ProtocolInvariant
  import opened ProtocolSteps

  function AttemptVersions(e: Entry): set<nat> {
    set i | 0 <= i < |e.attempts| :: e.attempts[i].version
  }

  predicate EntersDispatch(event: Event) {
    event.body.Moved? && event.body.to == Dispatching
  }

  function DispatchVersions(e: Entry): set<nat> {
    set i | 0 <= i < |e.events| && EntersDispatch(e.events[i]) :: e.events[i].version
  }

  predicate AttemptRow(e: Entry, attemptId: string, version: nat) {
    exists i :: 0 <= i < |e.attempts| && e.attempts[i].attemptId == attemptId && e.attempts[i].version == version
  }

  /** One attempt row per entry into DISPATCHING at most, in version order. */
  predicate EntryCallsOk(e: Entry) {
    && (forall i, j :: 0 <= i < j < |e.attempts| ==> e.attempts[i].version < e.attempts[j].version)
    && AttemptVersions(e) <= DispatchVersions(e)
  }

  ghost predicate ActorCallsOk(s: System, p: Actor) {
    p.Admitted? || p.Calling? || p.Reporting? ==>
      && p.rec.effectId in s.ledger.entries
      && var e := s.ledger.entries[p.rec.effectId];
      && p.rec.version in DispatchVersions(e)
      && (p.Admitted? ==> p.rec.version !in AttemptVersions(e))
      && (p.Calling? || p.Reporting? ==> AttemptRow(e, p.attemptId, p.rec.version))
      && (p.Calling? ==> TargetCall(p.rec.effectId, p.rec.version) !in s.calls)
  }

  ghost predicate LogOkFor(s: System, c: TargetCall) {
    c.effectId in s.ledger.entries && c.version in AttemptVersions(s.ledger.entries[c.effectId])
  }

  ghost predicate CallsOk(s: System) {
    && (forall id :: id in s.ledger.entries ==> EntryCallsOk(s.ledger.entries[id]))
    && (forall i :: 0 <= i < |s.calls| ==> LogOkFor(s, s.calls[i]))
    && (forall i, j :: 0 <= i < j < |s.calls| ==> s.calls[i] != s.calls[j])
    && (forall a :: a in s.actors ==> ActorCallsOk(s, s.actors[a]))
  }

  // ---------------------------------------------------------------- entries

  lemma DispatchAppended(e: Entry, version: nat, at: int, body: EventBody)
    ensures var e' := e.(events := Appended(e.events, version, at, body));
            DispatchVersions(e') == DispatchVersions(e) + if EntersDispatch(Event(0, version, at, body)) then {version} else {}
  {
    var e' := e.(events := Appended(e.events, version, at, body));
    var n := |e.events|;
    assert forall i :: 0 <= i < n ==> e'.events[i] == e.events[i];
    if EntersDispatch(e'.events[n]) {
      assert version in DispatchVersions(e');
    }
    forall v | v in DispatchVersions(e)
      ensures v in DispatchVersions(e')
    {
      var i :| 0 <= i < n && EntersDispatch(e.events[i]) && e.events[i].version == v;
      assert EntersDispatch(e'.events[i]) && e'.events[i].version == v;
    }
  }

  /** A claim changes neither attempts nor entries into DISPATCHING. */
  lemma ClaimDispatches(e: Entry, worker: string, now: int, leaseFor: int)
    ensures DispatchVersions(ClaimEntry(e, worker, now, leaseFor)) == DispatchVersions(e)
    ensures ClaimEntry(e, worker, now, leaseFor).attempts == e.attempts
  {
    hide DispatchVersions;
    var e' := ClaimEntry(e, worker, now, leaseFor);
    DispatchAppended(e, e.record.version + 1, now, Claimed(worker, now + leaseFor));
    SameEventsSameDispatches(e', e.(events := e'.events));
  }

  lemma MoveDispatches(e: Entry, target: Status, data: Metadata, now: int)
    ensures DispatchVersions(MoveEntry(e, target, data, now))
         == DispatchVersions(e) + if target == Dispatching then {e.record.version + 1} else {}
    ensures MoveEntry(e, target, data, now).attempts == e.attempts
  {
    hide DispatchVersions;
    var e' := MoveEntry(e, target, data, now);
    DispatchAppended(e, e.record.version + 1, now, Moved(e.record.status, target, data));
    SameEventsSameDispatches(e', e.(events := e'.events));
  }

  lemma SameEventsSameDispatches(e: Entry, e': Entry)
    requires e.events == e'.events
    ensures DispatchVersions(e) == DispatchVersions(e')
  {
  }

  lemma AttemptDispatches(e: Entry, worker: string, now: int)
    ensures DispatchVersions(AttemptEntry(e, worker, now)) == DispatchVersions(e)
    ensures AttemptVersions(AttemptEntry(e, worker, now)) == AttemptVersions(e) + {e.record.version}
    ensures var e' := AttemptEntry(e, worker, now);
            AttemptRow(e', e'.attempts[|e'.attempts| - 1].attemptId, e.record.version)
  {
    var e' := AttemptEntry(e, worker, now);
    assert DispatchVersions(e') == DispatchVersions(e) by {
      hide DispatchVersions;
      var body := e'.events[|e.events|].body;
      DispatchAppended(e, e.record.version, now, body);
      SameEventsSameDispatches(e', e.(events := e'.events));
    }
    var n := |e.attempts|;
    assert forall i :: 0 <= i < n ==> e'.attempts[i] == e.attempts[i];
    assert e'.attempts[n].version == e.record.version;
    forall v | v in AttemptVersions(e)
      ensures v in AttemptVersions(e')
    {
      var i :| 0 <= i < n && e.attempts[i].version == v;
      assert e'.attempts[i].version == v;
    }
  }

  // ---------------------------------------------------------------- steps

  /** A step that writes no attempt and makes no call, seen by one actor. */
  ghost predicate SameOrSettled(s: System, s': System, was: Actor, p: Actor) {
    || p == was
    || !(p.Admitted? || p.Calling? || p.Reporting?)
    || (p.Reporting? && was.Reporting? && p.rec == was.rec && p.attemptId == was.attemptId)
    || (p.Admitted? && NewlyOwned(s, p.rec) && p.rec.effectId in s'.ledger.entries
        && p.rec.version in DispatchVersions(s'.ledger.entries[p.rec.effectId]))
  }

  lemma CallsFrame(s: System, s': System)
    requires Inv(s) && CallsOk(s)
    requires s'.calls == s.calls
    requires forall id :: id in s.ledger.entries ==>
               && id in s'.ledger.entries
               && s'.ledger.entries[id].attempts == s.ledger.entries[id].attempts
               && DispatchVersions(s.ledger.entries[id]) <= DispatchVersions(s'.ledger.entries[id])
    requires forall id :: id in s'.ledger.entries && id !in s.ledger.entries ==> s'.ledger.entries[id].attempts == []
    requires forall b :: b in s'.actors ==> SameOrSettled(s, s', Pc(s, b), s'.actors[b])
    ensures CallsOk(s')
  {
    hide DispatchVersions, Inv;
    forall b | b in s'.actors
      ensures ActorCallsOk(s', s'.actors[b])
    {
      var p := s'.actors[b];
      assert ActorCallsOk(s, Pc(s, b));
      if p.Admitted? && NewlyOwned(s, p.rec) {
        AttemptVersionsBounded(s, p.rec.effectId);
      }
    }
  }

  lemma AttemptVersionsBounded(s: System, id: string)
    requires Inv(s) && id in s.ledger.entries
    ensures forall v :: v in AttemptVersions(s.ledger.entries[id]) ==> v <= Current(s, id).version
  {
    EntryFacts(s.ledger, id);
  }

  lemma QuietCalls(s: System, s': System, k: Kind)
    requires Inv(s) && CallsOk(s) && Is(s, s', k)
    requires k.Nothing? || k.Ticked? || k.Forgot? || k.Quiet? || k.Submitted? || k.Marked?
    ensures CallsOk(s')
  {
    hide Inv, CallsOk, DispatchVersions, AttemptVersions, EntryOk, ActorOk, Truthful, MoveEntry;
    if k.Submitted? {
      assert s'.ledger.entries[k.id].attempts == [];
    } else if k.Marked? {
      MoveDispatches(s.ledger.entries[k.id], OutcomeUnknown, ReasonData("stale_dispatching_worker_died"), s.clock);
    }
    CallsFrame(s, s');
  }

  lemma BatchCalls(s: System, s': System, k: Kind)
    requires Inv(s) && CallsOk(s) && Is(s, s', k) && k.Batch?
    ensures CallsOk(s')
  {
    hide Inv, CallsOk, DispatchVersions, AttemptVersions, ClaimEntry, ClaimedRecords, Due;
    forall id | id in s.ledger.entries
      ensures s'.ledger.entries[id].attempts == s.ledger.entries[id].attempts
      ensures DispatchVersions(s.ledger.entries[id]) <= DispatchVersions(s'.ledger.entries[id])
    {
      ClaimDispatches(s.ledger.entries[id], k.workerId, k.now, k.leaseFor);
    }
    CallsFrame(s, s');
  }

  lemma WroteCalls(s: System, s': System, k: Kind)
    requires Inv(s) && CallsOk(s) && Is(s, s', k) && k.Wrote?
    ensures CallsOk(s')
  {
    hide Inv, CallsOk, DispatchVersions, AttemptVersions, Outcome, RetentionValid, ProbedData;
    var id := k.rec.effectId;
    MoveDispatches(s.ledger.entries[id], k.target, k.data, s.clock);
    EntryIdFact(s, id);
    assert s'.ledger.entries[id] == MoveEntry(s.ledger.entries[id], k.target, k.data, s.clock);
    assert s'.ledger.entries[id].record.version == Current(s, id).version + 1;
    CallsFrame(s, s');
  }

  lemma EntryIdFact(s: System, id: string)
    requires Inv(s) && id in s.ledger.entries
    ensures Current(s, id).effectId == id
  {
    EntryFacts(s.ledger, id);
  }

  lemma StartedEntry(s: System, k: Kind)
    requires Inv(s) && CallsOk(s) && k.Started? && Pc(s, k.a).Admitted?
    requires Pc(s, k.a).rec.effectId in s.ledger.entries
    requires Pc(s, k.a).rec == Current(s, Pc(s, k.a).rec.effectId)
    ensures EntryCallsOk(AttemptEntry(s.ledger.entries[Pc(s, k.a).rec.effectId], PartyName(Pc(s, k.a).party), s.clock))
  {
    hide DispatchVersions, Inv;
    var p := Pc(s, k.a);
    var e := s.ledger.entries[p.rec.effectId];
    assert ActorCallsOk(s, p);
    AttemptDispatches(e, PartyName(p.party), s.clock);
    AttemptVersionsBounded(s, p.rec.effectId);
    var e' := AttemptEntry(e, PartyName(p.party), s.clock);
    forall i | 0 <= i < |e.attempts|
      ensures e.attempts[i].version < e.record.version
    {
      assert e.attempts[i].version in AttemptVersions(e);
    }
  }

  lemma StartedCalls(s: System, s': System, k: Kind)
    requires Inv(s) && CallsOk(s) && Is(s, s', k) && k.Started?
    ensures CallsOk(s')
  {
    hide DispatchVersions, AttemptVersions, LedgerOk, ActorOk, EntryCallsOk, AttemptEntry;
    var p := Pc(s, k.a);
    var id := p.rec.effectId;
    var e := s.ledger.entries[id];
    var e' := s'.ledger.entries[id];
    StartedEntry(s, k);
    AttemptDispatches(e, PartyName(p.party), s.clock);
    assert ActorCallsOk(s, p);
    forall b | b in s'.actors && b != k.a
      ensures ActorCallsOk(s', s'.actors[b])
    {
      assert ActorCallsOk(s, s.actors[b]);
      RowsKept(e, PartyName(p.party), s.clock);
    }
    forall i | 0 <= i < |s.calls|
      ensures LogOkFor(s', s.calls[i])
    {
      assert LogOkFor(s, s.calls[i]);
    }
    assert forall c :: c in s.calls ==> LogOkFor(s, c);
    assert ActorCallsOk(s', s'.actors[k.a]);
  }

  lemma RowsKept(e: Entry, worker: string, now: int)
    ensures forall attemptId, v :: AttemptRow(e, attemptId, v) ==> AttemptRow(AttemptEntry(e, worker, now), attemptId, v)
  {
    var e' := AttemptEntry(e, worker, now);
    forall attemptId, v | AttemptRow(e, attemptId, v)
      ensures AttemptRow(e', attemptId, v)
    {
      var i :| 0 <= i < |e.attempts| && e.attempts[i].attemptId == attemptId && e.attempts[i].version == v;
      assert e'.attempts[i] == e.attempts[i];
    }
  }

  lemma CalledCalls(s: System, s': System, k: Kind)
    requires Inv(s) && CallsOk(s) && Is(s, s', k) && k.Called?
    ensures CallsOk(s')
  {
    hide DispatchVersions, AttemptVersions, LedgerOk, ActorOk, EntryCallsOk, Commit;
    var p := Pc(s, k.a);
    var c := TargetCall(p.rec.effectId, p.rec.version);
    assert s'.calls == s.calls + [c] && s'.ledger == s.ledger;
    assert ActorCallsOk(s, p);
    RowVersion(s.ledger.entries[p.rec.effectId], p.attemptId, p.rec.version);
    forall b | b in s'.actors
      ensures ActorCallsOk(s', s'.actors[b])
    {
      if b != k.a {
        assert ActorCallsOk(s, s.actors[b]);
      }
    }
    forall i | 0 <= i < |s'.calls|
      ensures LogOkFor(s', s'.calls[i])
    {
      assert i < |s.calls| ==> LogOkFor(s, s.calls[i]);
    }
  }

  lemma RowVersion(e: Entry, attemptId: string, version: nat)
    requires AttemptRow(e, attemptId, version)
    ensures version in AttemptVersions(e)
  {
  }

  lemma NextKeepsCalls(s: System, l: Label)
    requires Inv(s) && CallsOk(s)
    ensures CallsOk(Next(s, l))
  {
    hide Inv, CallsOk, Next, Is;
    var k := Classify(s, l);
    match k
    case Batch(_, _, _, _, _) => BatchCalls(s, Next(s, l), k);
    case Wrote(_, _, _, _, _) => WroteCalls(s, Next(s, l), k);
    case Started(_) => StartedCalls(s, Next(s, l), k);
    case Called(_, _) => CalledCalls(s, Next(s, l), k);
    case _ => QuietCalls(s, Next(s, l), k);
  }
}
