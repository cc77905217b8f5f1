/** What terminal statuses mean: frozen records, truthful receipts, and cancellations that stay uncharged. */
module ProtocolOutcomes {
  import opened Prelude
  import opened Json
  import opened Identity
  import opened Models
  import opened StateMachine
  import opened Ledger
  import opened LedgerProofs
  import opened Target
  import opened Protocol
  import opened ProtocolInvariant
  import opened ProtocolSteps
  import opened ProtocolCalls
  import opened ProtocolTarget
  import opened ProtocolRuns
  import opened ProtocolOnce
  import opened ProtocolTheorems

  // ---------------------------------------------------------------- terminal effects are frozen

  lemma NextKeepsTerminal(s: System, l: Label, id: string)
    requires Inv(s) && id in s.ledger.entries && Terminal(Current(s, id).status)
    ensures id in Next(s, l).ledger.entries && Next(s, l).ledger.entries[id] == s.ledger.entries[id]
  {
    hide Inv, Next, Is;
    var k := Classify(s, l);
    KindKeepsTerminal(s, Next(s, l), k, id);
  }

  lemma KindKeepsTerminal(s: System, s': System, k: Kind, id: string)
    requires Inv(s) && Is(s, s', k) && id in s.ledger.entries && Terminal(Current(s, id).status)
    ensures id in s'.ledger.entries && s'.ledger.entries[id] == s.ledger.entries[id]
  {
    hide Inv, MayWrite, QuietMove, EntryOk, MoveEntry, AttemptEntry, ClaimEntry;
    if k.Started? {
      PartyStatus(s, k.a);
    }
  }

  /** Dispatching parties hold DISPATCHING snapshots. */
  lemma PartyStatus(s: System, a: nat)
    requires Inv(s) && (Pc(s, a).Admitted? || Pc(s, a).Calling? || Pc(s, a).Reporting?)
    ensures Pc(s, a).rec.status == Dispatching
  {
    assert ActorOk(s.ledger, Pc(s, a));
  }

  /** Once terminal, an effect's record, attempts and events never change again, in any run. */
  lemma {:induction false} TerminalForever(s: System, run: seq<Label>, id: string)
    requires Inv(s) && id in s.ledger.entries && Terminal(Current(s, id).status)
    ensures id in After(s, run).ledger.entries && After(s, run).ledger.entries[id] == s.ledger.entries[id]
  {
    hide Inv, Next;
    if run == [] {
    } else {
      TerminalForever(s, run[..|run| - 1], id);
      RunKeeps(s, run[..|run| - 1]);
      NextKeepsTerminal(After(s, run[..|run| - 1]), run[|run| - 1], id);
    }
  }

  // ---------------------------------------------------------------- cancellation

  /** An effect cancelled before any attempt is never passed to the target, in any continuation. */
  lemma CancelledNeverCalled(s: System, run: seq<Label>, id: string)
    requires Sound(s) && id in s.ledger.entries
    requires Current(s, id).status == Cancelled && s.ledger.entries[id].attempts == []
    ensures var s' := After(s, run);
            && id in s'.ledger.entries && Current(s', id).status == Cancelled
            && CallCount(s'.calls, id) == 0 && Charges(s', id) == {}
  {
    hide After, Inv, CallsOk, TargetInv, ChargedByCalls, Charges, CallCount, DispatchVersions;
    TerminalForever(s, run, id);
    RunSound(s, run);
    WriteAhead(After(s, run), id);
  }

  /**
   * Whatever races it lost or won, a cancelled effect has no charge, then or ever, once its owners
   * are gone before they are declared so and AdapterError means a proven non-commit.
   */
  lemma CancelledNeverCharged(secret: string, now: int, run: seq<Label>, later: seq<Label>, id: string)
    requires Throughout(OwnerGone, Start(secret, now), run + later)
    requires Throughout(ProvenNonCommit, Start(secret, now), run + later)
    requires id in After(Start(secret, now), run).ledger.entries
    requires Current(After(Start(secret, now), run), id).status == Cancelled
    ensures id in After(Start(secret, now), run + later).ledger.entries
    ensures Charges(After(Start(secret, now), run + later), id) == {}
  {
    hide After, Sound, Fenced, ActorClean, Throughout, Charges;
    var s0 := Start(secret, now);
    StartSound(secret, now);
    StartClean(secret, now, true);
    RunSound(s0, run);
    InvOfSound(After(s0, run));
    TerminalForever(After(s0, run), later, id);
    AfterConcat(s0, run, later);
    RunOnce(s0, run + later, true);
    assert EffectClean(After(s0, run + later), id, true);
  }

  // ---------------------------------------------------------------- truthful success

  ghost predicate OperatorMade(data: Metadata) {
    exists evidence :: data == OperatorData(evidence)
  }

  predicate Names(data: Metadata, x: string) {
    "external_id" in data && data["external_id"] == JStr(x)
  }

  /** A recorded success was resolved by an operator, or names a charge of its effect. */
  ghost predicate Honest(s: System, id: string, data: Metadata)
    requires id in s.ledger.entries
  {
    OperatorMade(data) || exists x :: x in Charges(s, id) && Names(data, x)
  }

  ghost predicate HonestLog(s: System, id: string)
    requires id in s.ledger.entries
  {
    forall i :: 0 <= i < |s.ledger.entries[id].events| && IsSuccess(s.ledger.entries[id].events[i]) ==>
      Honest(s, id, s.ledger.entries[id].events[i].body.metadata)
  }

  ghost predicate Truth(s: System) {
    forall id :: id in s.ledger.entries ==> HonestLog(s, id)
  }

  lemma OperatorNamesNothing(evidence: Metadata)
    ensures "external_id" !in OperatorData(evidence)
  {
    assert |"external_id"| == 11 && |"evidence"| == 8 && |"actor"| == 5;
  }

  lemma DispatchDataNames(attemptId: string, x: string)
    ensures Names(CommittedData(attemptId, x), x)
  {
    assert |"external_id"| == 11 && |"output"| == 6 && |"attempt_id"| == 10;
  }

  lemma ProbeDataNames(x: string, evidence: Metadata)
    ensures Names(ProbedData(x, evidence), x)
  {
    assert |"external_id"| == 11 && |"output"| == 6 && |"evidence"| == 8;
  }

  /** What a writer of SUCCEEDED writes. */
  lemma SuccessData(s: System, s': System, k: Kind)
    requires Inv(s) && TargetInv(s) && Is(s, s', k) && k.Wrote? && k.target == Succeeded
    requires k.rec.effectId in s.ledger.entries
    ensures Honest(s, k.rec.effectId, k.data)
  {
    hide LedgerOk, UniqueOwners, MovedLedger, TargetOk, HasHome, Names, CommittedData, ProbedData, OperatorData, ChargesFor,
         RetentionValid, QueueOk;
    var p := Pc(s, k.a);
    assert ActorOk(s.ledger, p);
    assert k.a in s.actors ==> AnswerOk(s.target, p);
    if p.Reporting? {
      OutcomeFacts(p);
      DispatchDataNames(p.attemptId, p.answer.externalId);
    } else if p.Judging? {
      ProbeDataNames(p.verdict.externalId, p.evidence);
    }
  }

  lemma HonestGrows(s: System, s': System, id: string, data: Metadata)
    requires id in s.ledger.entries && id in s'.ledger.entries && Charges(s, id) <= Charges(s', id)
    requires Honest(s, id, data)
    ensures Honest(s', id, data)
  {
    hide Names, ChargesFor;
  }

  /** Only a write of SUCCEEDED adds a success to a log. */
  lemma NewSuccess(s: System, s': System, k: Kind, id: string, i: nat)
    requires Inv(s) && Is(s, s', k) && id in s'.ledger.entries && i < |s'.ledger.entries[id].events|
    requires IsSuccess(s'.ledger.entries[id].events[i])
    ensures id in s.ledger.entries
    ensures i < |s.ledger.entries[id].events| ==> s'.ledger.entries[id].events[i] == s.ledger.entries[id].events[i]
    ensures i >= |s.ledger.entries[id].events| ==>
              k.Wrote? && k.target == Succeeded && k.rec.effectId == id
              && s'.ledger.entries[id].events[i].body.metadata == k.data
  {
    hide Inv, MayWrite, QuietMove, EntryOk;
    if k.Wrote? {
      EntryIdFact(s, k.rec.effectId);
    }
  }

  lemma NextKeepsTruth(s: System, l: Label)
    requires Inv(s) && TargetInv(s) && Truth(s)
    ensures Truth(Next(s, l))
  {
    hide Inv, TargetInv, Next, Is, Honest, ChargesFor;
    var k := Classify(s, l);
    var s' := Next(s, l);
    forall id, i | id in s'.ledger.entries && 0 <= i < |s'.ledger.entries[id].events| && IsSuccess(s'.ledger.entries[id].events[i])
      ensures Honest(s', id, s'.ledger.entries[id].events[i].body.metadata)
    {
      NewSuccess(s, s', k, id, i);
      ChargesGrow(s, s', k, id);
      if i < |s.ledger.entries[id].events| {
        assert HonestLog(s, id);
      } else {
        SuccessData(s, s', k);
      }
      HonestGrows(s, s', id, s'.ledger.entries[id].events[i].body.metadata);
    }
  }

  lemma {:induction false} RunKeepsTruth(s: System, run: seq<Label>)
    requires Sound(s) && Truth(s)
    ensures Sound(After(s, run)) && Truth(After(s, run))
  {
    hide Inv, CallsOk, TargetInv, ChargedByCalls, Truth, Next;
    if run == [] {
    } else {
      RunKeepsTruth(s, run[..|run| - 1]);
      NextSound(After(s, run[..|run| - 1]), run[|run| - 1]);
      NextKeepsTruth(After(s, run[..|run| - 1]), run[|run| - 1]);
    }
  }

  /** A SUCCEEDED effect has exactly the events that make its receipt. */
  lemma SucceededHasReceipt(l: Ledger, id: string)
    requires LedgerOk(l) && id in l.entries && l.entries[id].record.status == Succeeded
    ensures LastSuccess(l.entries[id].events).Some?
  {
    hide IdentityOk, OrderOk, AttemptsOk;
    EntryFacts(l, id);
    var events := l.entries[id].events;
    LastMoveMadeStatus(events);
  }

  /** Whoever is not PREPARED got there by a move to the status it has. */
  lemma {:induction false} LastMoveMadeStatus(events: seq<Event>)
    requires Replay(events).Some? && Replay(events).value.status == Succeeded
    ensures exists i :: 0 <= i < |events| && IsSuccess(events[i])
  {
    var last := |events| - 1;
    if IsSuccess(events[last]) {
    } else {
      LastMoveMadeStatus(events[..last]);
    }
  }

  /** Unconditionally: a success not resolved by an operator names a charge that exists at the target. */
  lemma SuccessNamesCharge(secret: string, now: int, run: seq<Label>, id: string)
    requires id in After(Start(secret, now), run).ledger.entries
    requires Current(After(Start(secret, now), run), id).status == Succeeded
    ensures var s := After(Start(secret, now), run);
            var receipt := ReceiptFor(s.ledger, Current(s, id).tenantId, id);
            && receipt.Some?
            && receipt.value.downstreamKey == KeyOf(s, id)
            && Honest(s, id, receipt.value.metadata)
  {
    hide After, Inv, CallsOk, TargetInv, ChargedByCalls, Honest, Replay;
    var s := After(Start(secret, now), run);
    StartSound(secret, now);
    RunKeepsTruth(Start(secret, now), run);
    LedgerOfInv(s);
    SucceededHasReceipt(s.ledger, id);
    assert HonestLog(s, id);
  }

  lemma LedgerOfInv(s: System)
    requires Inv(s)
    ensures LedgerOk(s.ledger)
  {
  }

  /**
   * Truthful success: a SUCCEEDED effect not resolved by an operator has exactly one charge, and its
   * receipt names it, whether success came first time, by redispatch or by probe. Which of the two it
   * was can be read off the receipt: an operator's names no external id.
   */
  lemma TruthfulSuccess(secret: string, now: int, run: seq<Label>, id: string)
    requires Throughout(OwnerGone, Start(secret, now), run)
    requires Throughout(NeverForgets, Start(secret, now), run)
    requires id in After(Start(secret, now), run).ledger.entries
    requires Current(After(Start(secret, now), run), id).status == Succeeded
    ensures var s := After(Start(secret, now), run);
            var receipt := ReceiptFor(s.ledger, Current(s, id).tenantId, id);
            && receipt.Some?
            && (OperatorMade(receipt.value.metadata) <==> "external_id" !in receipt.value.metadata)
            && ("external_id" in receipt.value.metadata ==>
                  exists x :: Charges(s, id) == {x} && Names(receipt.value.metadata, x))
  {
    hide After, Throughout, ReceiptFor, Names, ChargesFor, OperatorData;
    var s := After(Start(secret, now), run);
    SuccessNamesCharge(secret, now, run, id);
    AtMostOneCharge(secret, now, run, id);
    var data := ReceiptFor(s.ledger, Current(s, id).tenantId, id).value.metadata;
    if OperatorMade(data) {
      var evidence :| data == OperatorData(evidence);
      OperatorNamesNothing(evidence);
    } else {
      var x :| x in Charges(s, id) && Names(data, x);
      NamedIsThere(data, x);
      forall y | y in Charges(s, id)
        ensures y == x
      {
        SingletonMembers(Charges(s, id), x, y);
      }
      assert Charges(s, id) == {x};
    }
  }

  lemma NamedIsThere(data: Metadata, x: string)
    requires Names(data, x)
    ensures "external_id" in data
  {
  }
}
