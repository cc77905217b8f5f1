/**
 * Whole runs, with no hypothesis on the environment: write-ahead and fencing for every effect, and
 * for unsafe effects at most one attempt, one call and one charge, live zombies included.
 */
module ProtocolRuns {
  import opened Prelude
  import opened Identifiers
  import opened Models
  import opened StateMachine
  import opened Ledger
  import opened LedgerProofs
  import opened Target
  import opened Protocol
  import opened ProtocolInvariant
  import opened ProtocolSteps
  import opened ProtocolCalls
  import opened ProtocolTarget

  /** Everything that holds in every reachable state, whatever the environment does. */
  ghost predicate Sound(s: System) {
    Inv(s) && CallsOk(s) && TargetInv(s) && ChargedByCalls(s)
  }

  lemma StartSound(secret: string, now: int)
    ensures Sound(Start(secret, now))
  {
    StartOk(secret, now);
  }

  lemma InvOfSound(s: System)
    requires Sound(s)
    ensures Inv(s)
  {
  }

  lemma NextSound(s: System, l: Label)
    requires Sound(s)
    ensures Sound(Next(s, l))
  {
    hide Inv, CallsOk, TargetInv, ChargedByCalls, Next;
    NextKeeps(s, l);
    NextKeepsCalls(s, l);
    NextKeepsTarget(s, l);
    NextKeepsCharged(s, l);
  }

  lemma {:induction false} RunSound(s: System, run: seq<Label>)
    requires Sound(s)
    ensures Sound(After(s, run))
  {
    hide Sound, Next;
    if run == [] {
    } else {
      RunSound(s, run[..|run| - 1]);
      NextSound(After(s, run[..|run| - 1]), run[|run| - 1]);
    }
  }

  // ---------------------------------------------------------------- write-ahead

  function CallVersions(calls: seq<TargetCall>, id: string): set<nat> {
    set i | 0 <= i < |calls| && calls[i].effectId == id :: calls[i].version
  }

  lemma CallVersionsAppended(calls: seq<TargetCall>, c: TargetCall, id: string)
    ensures CallVersions(calls + [c], id) == CallVersions(calls, id) + if c.effectId == id then {c.version} else {}
  {
    var all := calls + [c];
    assert all[|calls|] == c;
    forall v | v in CallVersions(calls, id)
      ensures v in CallVersions(all, id)
    {
      var i :| 0 <= i < |calls| && calls[i].effectId == id && calls[i].version == v;
      assert all[i] == calls[i];
    }
  }

  lemma NotCalledBefore(calls: seq<TargetCall>, c: TargetCall)
    requires forall i :: 0 <= i < |calls| ==> calls[i] != c
    ensures c.version !in CallVersions(calls, c.effectId)
  {
  }

  /** Distinct calls of one effect have distinct versions. */
  lemma {:induction false} CallsByVersion(calls: seq<TargetCall>, id: string)
    requires forall i, j :: 0 <= i < j < |calls| ==> calls[i] != calls[j]
    ensures CallCount(calls, id) == |CallVersions(calls, id)|
  {
    if calls == [] {
      assert CallVersions(calls, id) == {};
    } else {
      var front, c := calls[..|calls| - 1], calls[|calls| - 1];
      assert calls == front + [c];
      CallsByVersion(front, id);
      OneMoreCall(front, c, id);
    }
  }

  lemma OneMoreCall(front: seq<TargetCall>, c: TargetCall, id: string)
    requires forall i :: 0 <= i < |front| ==> front[i] != c
    requires CallCount(front, id) == |CallVersions(front, id)|
    ensures CallCount(front + [c], id) == |CallVersions(front + [c], id)|
  {
    hide CallCount, CallVersions;
    CallVersionsAppended(front, c, id);
    CallCountAppended(front, c, id);
    NotCalledBefore(front, c);
  }

  lemma AttemptsByVersion(e: Entry)
    requires EntryCallsOk(e)
    ensures |AttemptVersions(e)| == |e.attempts|
  {
    var versions := seq(|e.attempts|, i requires 0 <= i < |e.attempts| => e.attempts[i].version);
    DistinctCardinality(versions);
    assert (set v | v in versions) == AttemptVersions(e) by {
      forall v | v in AttemptVersions(e)
        ensures v in versions
      {
        var i :| 0 <= i < |e.attempts| && e.attempts[i].version == v;
        assert versions[i] == v;
      }
    }
  }

  /** Calls never outnumber attempt rows, which never outnumber entries into DISPATCHING. */
  lemma WriteAhead(s: System, id: string)
    requires Sound(s) && id in s.ledger.entries
    ensures var e := s.ledger.entries[id];
            && |Charges(s, id)| <= CallCount(s.calls, id) <= |e.attempts| <= |DispatchVersions(e)|
            && (forall i, j :: 0 <= i < j < |e.attempts| ==> e.attempts[i].version < e.attempts[j].version)
            && (forall i, j :: 0 <= i < j < |s.calls| ==> s.calls[i] != s.calls[j])
            && (forall i :: 0 <= i < |s.calls| && s.calls[i].effectId == id ==> s.calls[i].version in AttemptVersions(e))
  {
    hide Inv, TargetInv, DispatchVersions, CallCount, Charges;
    assert forall i :: 0 <= i < |s.calls| ==> LogOkFor(s, s.calls[i]);
    var e := s.ledger.entries[id];
    CallsByVersion(s.calls, id);
    AttemptsByVersion(e);
    assert CallVersions(s.calls, id) <= AttemptVersions(e) by {
      forall v | v in CallVersions(s.calls, id)
        ensures v in AttemptVersions(e)
      {
        var i :| 0 <= i < |s.calls| && s.calls[i].effectId == id && s.calls[i].version == v;
        assert LogOkFor(s, s.calls[i]);
      }
    }
    SubsetCardinality(CallVersions(s.calls, id), AttemptVersions(e));
    SubsetCardinality(AttemptVersions(e), DispatchVersions(e));
  }

  /** The retry limit is compared with the true number of attempts. */
  lemma CurrentAttemptIsLast(s: System, a: nat)
    requires Sound(s) && a in s.actors && (s.actors[a].Calling? || s.actors[a].Reporting?)
    requires var p := s.actors[a];
             p.rec.effectId in s.ledger.entries ==> p.rec.version == Current(s, p.rec.effectId).version
    ensures var p := s.actors[a];
            && p.rec.effectId in s.ledger.entries
            && AttemptOrdinal(p.attemptId) == |s.ledger.entries[p.rec.effectId].attempts|
  {
    hide TargetInv, ChargedByCalls, ActorOk, UniqueOwners, IdentityOk, OrderOk, DispatchVersions, LogOk, AttemptOrdinal,
         AttemptId;
    var p := s.actors[a];
    assert ActorCallsOk(s, p);
    var e := s.ledger.entries[p.rec.effectId];
    var i :| 0 <= i < |e.attempts| && e.attempts[i].attemptId == p.attemptId && e.attempts[i].version == p.rec.version;
    EntryFacts(s.ledger, p.rec.effectId);
    var last := e.attempts[|e.attempts| - 1];
    assert last.version <= e.record.version;
    AttemptOrdinalRoundTrip(p.rec.effectId, i + 1);
  }

  /**
   * The event log is the state, after every run: replaying it gives status and version, its sequence
   * numbers have no gap, the version counts its claims and transitions, each of which made a version of
   * its own, and its edges form a path of the status graph.
   */
  lemma EventLogIsState(secret: string, now: int, run: seq<Label>, id: string)
    requires id in After(Start(secret, now), run).ledger.entries
    ensures var e := After(Start(secret, now), run).ledger.entries[id];
            && Replay(e.events) == Some(Replayed(e.record.status, e.record.version))
            && (forall i :: 0 <= i < |e.events| ==> e.events[i].sequence == i + 1)
            && e.record.version == Advances(e.events)
            && (forall i, j :: 0 <= i < j < |e.events| && (e.events[j].body.Claimed? || e.events[j].body.Moved?) ==>
                  e.events[i].version < e.events[j].version)
            && (forall i :: 0 < i < |e.events| && e.events[i].body.Moved? ==>
                  && Replay(e.events[..i]).Some? && e.events[i].body.from == Replay(e.events[..i]).value.status
                  && Allowed(e.events[i].body.from, e.events[i].body.to))
  {
    hide After, Replay, Advances, AttemptsOk;
    StartOk(secret, now);
    RunKeeps(Start(secret, now), run);
    LogOfReachable(After(Start(secret, now), run), id);
    var e := After(Start(secret, now), run).ledger.entries[id];
    VersionCountsAdvances(e.events);
    forall i, j | 0 <= i < j < |e.events| && (e.events[j].body.Claimed? || e.events[j].body.Moved?)
      ensures e.events[i].version < e.events[j].version
    {
      EachVersionOnce(e.events, i, j);
    }
    forall i | 0 < i < |e.events| && e.events[i].body.Moved?
      ensures Replay(e.events[..i]).Some? && e.events[i].body.from == Replay(e.events[..i]).value.status
      ensures Allowed(e.events[i].body.from, e.events[i].body.to)
    {
      EdgesFormPath(e.events, i);
    }
  }

  lemma LogOfReachable(s: System, id: string)
    requires Inv(s) && id in s.ledger.entries
    ensures LogOk(s.ledger.entries[id])
  {
    EntryFacts(s.ledger, id);
  }

  // ---------------------------------------------------------------- unsafe effects

  /** An unsafe effect enters DISPATCHING once and never comes back to where it could do so again. */
  ghost predicate UnsafeOk(e: Entry) {
    e.record.contract.safety == Unsafe ==>
      && e.record.contract.retryLimit == 0
      && e.record.status !in {Retryable, Reconciling}
      && (e.record.status in {Prepared, Cancelled} ==> DispatchVersions(e) == {})
      && |DispatchVersions(e)| <= 1
  }

  ghost predicate UnsafeInv(s: System) {
    forall id :: id in s.ledger.entries ==> UnsafeOk(s.ledger.entries[id])
  }

  lemma MoveKeepsUnsafe(e: Entry, target: Status, data: Metadata, now: int)
    requires UnsafeOk(e) && Allowed(e.record.status, target)
    requires e.record.contract.safety == Unsafe ==>
               && target !in {Retryable, Reconciling}
               && (target == Dispatching ==> e.record.status == Prepared)
    ensures UnsafeOk(MoveEntry(e, target, data, now))
  {
    hide DispatchVersions;
    MoveDispatches(e, target, data, now);
  }

  /** What a writer may do to an unsafe effect. */
  lemma UnsafeWrites(s: System, s': System, k: Kind)
    requires Inv(s) && UnsafeInv(s) && Is(s, s', k) && k.Wrote?
    requires k.rec.contract.safety == Unsafe
    ensures k.target !in {Retryable, Reconciling}
    ensures k.target == Dispatching ==> k.rec.status == Prepared
  {
    hide Inv, Is, DispatchVersions;
    WriterFacts(s, s', k);
    assert UnsafeOk(s.ledger.entries[k.rec.effectId]);
  }

  lemma NextKeepsUnsafe(s: System, l: Label)
    requires Inv(s) && UnsafeInv(s) && ValidContracts(s, l)
    ensures UnsafeInv(Next(s, l))
  {
    hide Inv, Next, Is, UnsafeOk, DispatchVersions;
    var k := Classify(s, l);
    KindUnsafe(s, Next(s, l), l, k);
  }

  lemma KindUnsafe(s: System, s': System, l: Label, k: Kind)
    requires Inv(s) && UnsafeInv(s) && Is(s, s', k) && Matches(l, k) && ValidContracts(s, l)
    ensures UnsafeInv(s')
  {
    hide Inv, DispatchVersions, UnsafeOk, ActorOk, ClaimEntry, AttemptEntry, MoveEntry, MayWrite, EntryOk, Truthful;
    match k
    case Submitted(id, e) => NewUnsafe(e);
    case Batch(a, workerId, now, ids, leaseFor) =>
      forall id | id in ids
        ensures UnsafeOk(s'.ledger.entries[id])
      {
        ClaimUnsafe(s.ledger.entries[id], workerId, now, leaseFor);
      }
    case Wrote(a, rec, target, data, p) =>
      if Current(s, rec.effectId).contract.safety == Unsafe {
        UnsafeWrites(s, s', k);
      }
      MoveKeepsUnsafe(s.ledger.entries[rec.effectId], target, data, s.clock);
    case Marked(id) =>
      MoveKeepsUnsafe(s.ledger.entries[id], OutcomeUnknown, ReasonData("stale_dispatching_worker_died"), s.clock);
    case Started(a) =>
      AttemptUnsafe(s.ledger.entries[Pc(s, a).rec.effectId], PartyName(Pc(s, a).party), s.clock);
    case _ =>
  }

  lemma NewUnsafe(e: Entry)
    requires e == NewEntry(e.record) && ValidateContract(e.record.contract).None? && e.record.status == Prepared
    ensures UnsafeOk(e)
  {
    assert DispatchVersions(e) == {};
  }

  lemma ClaimUnsafe(e: Entry, worker: string, now: int, leaseFor: int)
    requires UnsafeOk(e)
    ensures UnsafeOk(ClaimEntry(e, worker, now, leaseFor))
  {
    hide DispatchVersions;
    ClaimDispatches(e, worker, now, leaseFor);
  }

  lemma AttemptUnsafe(e: Entry, worker: string, now: int)
    requires UnsafeOk(e)
    ensures UnsafeOk(AttemptEntry(e, worker, now))
  {
    hide DispatchVersions, AttemptVersions, AttemptRow;
    AttemptDispatches(e, worker, now);
  }

  lemma {:induction false} RunKeepsUnsafe(s: System, run: seq<Label>)
    requires Sound(s) && UnsafeInv(s) && Throughout(ValidContracts, s, run)
    ensures Sound(After(s, run)) && UnsafeInv(After(s, run))
  {
    hide Inv, UnsafeInv, Next, CallsOk, TargetInv, ChargedByCalls, ValidContracts;
    if run == [] {
    } else {
      RunKeepsUnsafe(s, run[..|run| - 1]);
      NextSound(After(s, run[..|run| - 1]), run[|run| - 1]);
      NextKeepsUnsafe(After(s, run[..|run| - 1]), run[|run| - 1]);
    }
  }

  /**
   * Under validated contracts an unsafe effect is passed to the target at most once over the whole
   * run: no assumption on crashed, paused or zombie workers, or on what the target forgets.
   */
  lemma UnsafeCalledAtMostOnce(secret: string, now: int, run: seq<Label>, id: string)
    requires Throughout(ValidContracts, Start(secret, now), run)
    requires id in After(Start(secret, now), run).ledger.entries
    requires Current(After(Start(secret, now), run), id).contract.safety == Unsafe
    ensures var s := After(Start(secret, now), run);
            |Charges(s, id)| <= CallCount(s.calls, id) <= |s.ledger.entries[id].attempts| <= 1
  {
    hide Sound, After, Next, DispatchVersions, CallCount, Charges;
    var s0 := Start(secret, now);
    StartSound(secret, now);
    RunKeepsUnsafe(s0, run);
    WriteAhead(After(s0, run), id);
    assert UnsafeOk(After(s0, run).ledger.entries[id]);
  }
}
