/**
 * Recording as a step of its own (src/effect_broker/observability.py): a store whose commit can be
 * overtaken lets another task write and record before this one records. At quiescence, when everything
 * written has been recorded once, the index is true exactly when the last recorded change of each effect
 * says the same as the last one made; recording in version order is enough for that.
 */
module RecordingRaces {
  import opened Prelude
  import opened Models
  import opened StateMachine
  import opened Ledger
  import Spec = Ledger
  import opened LedgerProofs
  import opened ProtocolInvariant
  import opened Observability
  import StoresAgree
  import PostgresTransition

  datatype Change = Change(before: Record, after: Record)

  /** Changes made, changes recorded so far in the order of recording, and those made but not yet recorded. */
  datatype Race = Race(ledger: Ledger, made: seq<Change>, recorded: seq<Change>, pending: multiset<Change>)

  datatype RaceStep =
    | Write(id: string, expected: nat, target: Status, data: Metadata, now: int)
    | Record(change: Change)
    | Other(newId: string, op: StoresAgree.Operation)

  function RaceNext(r: Race, step: RaceStep): Race {
    match step
    case Write(id, expected, target, data, now) =>
      var (l, result) := Spec.Transition(r.ledger, id, expected, target, data, now);
      if result.Err? || id !in r.ledger.entries then r
      else
        var change := Change(r.ledger.entries[id].record, result.value);
        Race(l, r.made + [change], r.recorded, r.pending + multiset{change})
    case Record(change) =>
      if change in r.pending then r.(recorded := r.recorded + [change], pending := r.pending - multiset{change}) else r
    case Other(newId, op) =>
      if newId in r.ledger.entries || op.Moving? then r else r.(ledger := StoresAgree.Apply(r.ledger, newId, op).0)
  }

  function RaceAll(r: Race, steps: seq<RaceStep>): Race {
    if steps == [] then r else RaceNext(RaceAll(r, steps[..|steps| - 1]), steps[|steps| - 1])
  }

  function NewRace(secret: string): Race {
    Race(EmptyLedger(secret), [], [], multiset{})
  }

  /** The index the recorded changes have built. */
  function IndexOf(changes: seq<Change>): Index {
    if changes == [] then map[]
    else
      var last := |changes| - 1;
      Track(IndexOf(changes[..last]), changes[last].before, changes[last].after)
  }

  /** The change entered or left OUTCOME_UNKNOWN. */
  predicate Touches(c: Change, id: string) {
    c.after.effectId == id && c.before.status != c.after.status
    && (c.before.status == OutcomeUnknown || c.after.status == OutcomeUnknown)
  }

  /** The last change of an effect that entered or left OUTCOME_UNKNOWN. */
  function LastTouch(changes: seq<Change>, id: string): (r: Option<Change>)
    ensures r.Some? ==> r.value in changes && Touches(r.value, id)
    ensures r.None? ==> forall c :: c in changes ==> !Touches(c, id)
  {
    if changes == [] then None
    else
      var last := |changes| - 1;
      assert changes == changes[..last] + [changes[last]];
      if Touches(changes[last], id) then Some(changes[last]) else LastTouch(changes[..last], id)
  }

  predicate Entered(c: Option<Change>) {
    c.Some? && c.value.after.status == OutcomeUnknown
  }

  /** A change is a change of one effect whose pinned fields stay. */
  ghost predicate ChangesOk(changes: seq<Change>) {
    forall c :: c in changes ==> SamePinned(c.before, c.after)
  }

  /** What is indexed is decided by the last recorded change alone. */
  lemma {:induction false} IndexByLastTouch(changes: seq<Change>, id: string)
    requires ChangesOk(changes)
    ensures id in IndexOf(changes) <==> Entered(LastTouch(changes, id))
    ensures id in IndexOf(changes) ==> IndexOf(changes)[id] == UnknownKey(LastTouch(changes, id).value.after)
  {
    if changes == [] {
    } else {
      var last := |changes| - 1;
      var front, c := changes[..last], changes[last];
      assert changes == front + [c];
      assert c in changes;
      assert forall x :: x in front ==> x in changes;
      IndexByLastTouch(front, id);
    }
  }

  // ---------------------------------------------------------------- what the changes say of the ledger

  /** Each effect's changes, in the order they were made, have increasing versions. */
  ghost predicate VersionOrder(changes: seq<Change>) {
    forall i, j :: 0 <= i < j < |changes| && changes[i].after.effectId == changes[j].after.effectId ==>
      changes[i].after.version < changes[j].after.version
  }

  ghost predicate EffectTold(r: Race, id: string) {
    Entered(LastTouch(r.made, id)) <==> id in r.ledger.entries && r.ledger.entries[id].record.status == OutcomeUnknown
  }

  ghost predicate ChangeKnown(l: Ledger, c: Change) {
    && c.after.effectId in l.entries && SamePinned(c.after, l.entries[c.after.effectId].record)
    && c.after.version <= l.entries[c.after.effectId].record.version
    && SamePinned(c.before, c.after)
  }

  ghost predicate RaceOk(r: Race) {
    && LedgerOk(r.ledger)
    && (forall c :: c in r.made ==> ChangeKnown(r.ledger, c))
    && VersionOrder(r.made)
    && (forall id :: EffectTold(r, id))
    && multiset(r.made) == multiset(r.recorded) + r.pending
  }

  lemma NewRaceOk(secret: string)
    ensures RaceOk(NewRace(secret))
  {
    EmptyLedgerOk(secret);
  }

  lemma KnownLater(l: Ledger, l': Ledger, c: Change)
    requires Grows(l, l') && ChangeKnown(l, c)
    ensures ChangeKnown(l', c)
  {
    assert EntryGrows(l.entries[c.after.effectId], l'.entries[c.after.effectId]);
  }

  /** One change, as the transition that made it left the ledger. */
  lemma WriteFacts(r: Race, id: string, expected: nat, target: Status, data: Metadata, now: int)
    requires RaceOk(r) && Spec.Transition(r.ledger, id, expected, target, data, now).1.Ok?
    ensures id in r.ledger.entries
    ensures var (l, result) := Spec.Transition(r.ledger, id, expected, target, data, now);
            var c := Change(r.ledger.entries[id].record, result.value);
            && LedgerOk(l) && Grows(r.ledger, l) && ChangeKnown(l, c) && c.after.effectId == id
            && c.after == l.entries[id].record && c.before.status != c.after.status
            && c.after.version == r.ledger.entries[id].record.version + 1
            && l.entries.Keys == r.ledger.entries.Keys
            && forall x :: x in r.ledger.entries && x != id ==> l.entries[x] == r.ledger.entries[x]
  {
    hide LedgerOk, Grows, VersionOrder, EffectTold;
    TransitionKeepsLedger(r.ledger, id, expected, target, data, now);
    MovedRecord(r.ledger, id, expected, target, data, now);
  }

  lemma WriteKeepsRace(r: Race, id: string, expected: nat, target: Status, data: Metadata, now: int)
    requires RaceOk(r)
    ensures RaceOk(RaceNext(r, Write(id, expected, target, data, now)))
  {
    hide LedgerOk, Grows, ChangeKnown, EffectTold, VersionOrder, Spec.Transition;
    if Spec.Transition(r.ledger, id, expected, target, data, now).1.Ok? {
      WriteFacts(r, id, expected, target, data, now);
      var r' := RaceNext(r, Write(id, expected, target, data, now));
      var c := r'.made[|r.made|];
      forall x | x in r'.made
        ensures ChangeKnown(r'.ledger, x)
      {
        if x != c {
          KnownLater(r.ledger, r'.ledger, x);
        }
      }
      AppendVersion(r, c);
      forall x
        ensures EffectTold(r', x)
      {
        assert EffectTold(r, x);
        AppendTold(r, r', c, x);
      }
    }
  }

  lemma AppendVersion(r: Race, c: Change)
    requires VersionOrder(r.made) && forall x :: x in r.made ==> ChangeKnown(r.ledger, x)
    requires c.after.effectId in r.ledger.entries && c.after.version > r.ledger.entries[c.after.effectId].record.version
    ensures VersionOrder(r.made + [c])
  {
    var all := r.made + [c];
    forall i | 0 <= i < |r.made| && r.made[i].after.effectId == c.after.effectId
      ensures r.made[i].after.version < c.after.version
    {
      assert ChangeKnown(r.ledger, r.made[i]);
    }
  }

  lemma AppendTold(r: Race, r': Race, c: Change, x: string)
    requires EffectTold(r, x) && r'.made == r.made + [c]
    requires c.after.effectId in r.ledger.entries && r'.ledger.entries.Keys == r.ledger.entries.Keys
    requires c.before == r.ledger.entries[c.after.effectId].record && c.after == r'.ledger.entries[c.after.effectId].record
    requires c.before.status != c.after.status
    requires forall y :: y in r.ledger.entries && y != c.after.effectId ==> r'.ledger.entries[y] == r.ledger.entries[y]
    ensures EffectTold(r', x)
  {
    assert r'.made[..|r'.made| - 1] == r.made;
  }

  lemma OtherKeepsRace(r: Race, newId: string, op: StoresAgree.Operation)
    requires RaceOk(r)
    ensures RaceOk(RaceNext(r, Other(newId, op)))
  {
    hide LedgerOk, Grows, ChangeKnown, VersionOrder, StoresAgree.Apply;
    if newId !in r.ledger.entries && !op.Moving? {
      var r' := RaceNext(r, Other(newId, op));
      PostgresTransition.ApplyGrows(r.ledger, newId, op);
      forall x | x in r'.made
        ensures ChangeKnown(r'.ledger, x)
      {
        KnownLater(r.ledger, r'.ledger, x);
      }
      forall x
        ensures EffectTold(r', x)
      {
        assert EffectTold(r, x);
        OtherOperationKeeps(r.ledger, newId, op, x);
      }
    }
  }

  lemma RecordKeepsRace(r: Race, change: Change)
    requires RaceOk(r)
    ensures RaceOk(RaceNext(r, RaceStep.Record(change)))
  {
    hide LedgerOk, ChangeKnown, VersionOrder;
    var r' := RaceNext(r, RaceStep.Record(change));
    forall x
      ensures EffectTold(r', x)
    {
      assert EffectTold(r, x);
    }
  }

  lemma {:induction false} RaceKeeps(r: Race, steps: seq<RaceStep>)
    requires RaceOk(r)
    ensures RaceOk(RaceAll(r, steps))
  {
    hide RaceOk, RaceNext;
    if steps == [] {
    } else {
      RaceKeeps(r, steps[..|steps| - 1]);
      var before := RaceAll(r, steps[..|steps| - 1]);
      match steps[|steps| - 1]
      case Write(id, expected, target, data, now) => WriteKeepsRace(before, id, expected, target, data, now);
      case Record(change) => RecordKeepsRace(before, change);
      case Other(newId, op) => OtherKeepsRace(before, newId, op);
    }
  }

  // ---------------------------------------------------------------- quiescence

  /** Each effect's last recorded change says what its last change made says. */
  ghost predicate LastsAgree(r: Race) {
    forall id :: Entered(LastTouch(r.recorded, id)) <==> Entered(LastTouch(r.made, id))
  }

  /** Once everything is recorded, the index lists exactly the unknown effects if and only if the last words agree. */
  lemma QuiescentIndexIff(secret: string, steps: seq<RaceStep>)
    requires RaceAll(NewRace(secret), steps).pending == multiset{}
    ensures var r := RaceAll(NewRace(secret), steps);
            Mirrors(IndexOf(r.recorded), r.ledger) <==> LastsAgree(r)
  {
    hide LedgerOk, Touches, Entered, LastTouch, IndexOf, RaceAll, VersionOrder;
    var r := RaceAll(NewRace(secret), steps);
    NewRaceOk(secret);
    RaceKeeps(NewRace(secret), steps);
    RecordedKnown(r);
    forall id
      ensures id in IndexOf(r.recorded) <==> Entered(LastTouch(r.recorded, id))
      ensures id in IndexOf(r.recorded) && id in r.ledger.entries ==>
                IndexOf(r.recorded)[id] == UnknownKey(r.ledger.entries[id].record)
      ensures EffectTold(r, id)
    {
      IndexByLastTouch(r.recorded, id);
      assert EffectTold(r, id);
      if id in IndexOf(r.recorded) {
        LastIsRecorded(r, id);
      }
    }
    if Mirrors(IndexOf(r.recorded), r.ledger) {
      forall id
        ensures Entered(LastTouch(r.recorded, id)) <==> Entered(LastTouch(r.made, id))
      {
        assert EffectTold(r, id);
      }
    }
  }

  lemma RecordedKnown(r: Race)
    requires RaceOk(r) && r.pending == multiset{}
    ensures ChangesOk(r.recorded)
    ensures forall c :: c in r.recorded <==> c in r.made
    ensures forall c :: c in r.recorded ==> ChangeKnown(r.ledger, c)
  {
    hide LedgerOk, VersionOrder, EffectTold;
    forall c
      ensures c in r.recorded <==> c in r.made
    {
      assert c in r.recorded <==> c in multiset(r.recorded);
      assert c in r.made <==> c in multiset(r.made);
    }
  }

  lemma LastIsRecorded(r: Race, id: string)
    requires ChangesOk(r.recorded) && id in IndexOf(r.recorded)
    requires forall c :: c in r.recorded ==> ChangeKnown(r.ledger, c)
    ensures id in r.ledger.entries && IndexOf(r.recorded)[id] == UnknownKey(r.ledger.entries[id].record)
  {
    IndexByLastTouch(r.recorded, id);
    assert ChangeKnown(r.ledger, LastTouch(r.recorded, id).value);
  }

  /** In a list in version order, the last touch has the largest version of all touches. */
  lemma {:induction false} LastIsLargest(changes: seq<Change>, id: string, c: Change)
    requires VersionOrder(changes) && c in changes && Touches(c, id)
    ensures LastTouch(changes, id).Some? && c.after.version <= LastTouch(changes, id).value.after.version
    ensures c.after.version == LastTouch(changes, id).value.after.version ==> c == LastTouch(changes, id).value
  {
    var last := |changes| - 1;
    var i :| 0 <= i < |changes| && changes[i] == c;
    if Touches(changes[last], id) {
    } else {
      assert changes[..last][i] == c;
      LastIsLargest(changes[..last], id, c);
    }
  }

  /** Recording each effect's changes in version order makes the index true at quiescence. */
  lemma VersionOrderSuffices(secret: string, steps: seq<RaceStep>)
    requires RaceAll(NewRace(secret), steps).pending == multiset{}
    requires VersionOrder(RaceAll(NewRace(secret), steps).recorded)
    ensures var r := RaceAll(NewRace(secret), steps);
            Mirrors(IndexOf(r.recorded), r.ledger)
  {
    hide LedgerOk, Touches, IndexOf, RaceAll, VersionOrder, Mirrors, ChangeKnown;
    var r := RaceAll(NewRace(secret), steps);
    NewRaceOk(secret);
    RaceKeeps(NewRace(secret), steps);
    RecordedKnown(r);
    forall id
      ensures LastTouch(r.recorded, id) == LastTouch(r.made, id)
    {
      SameLast(r.recorded, r.made, id);
    }
    QuiescentIndexIff(secret, steps);
  }

  lemma SameLast(a: seq<Change>, b: seq<Change>, id: string)
    requires VersionOrder(a) && VersionOrder(b) && forall c :: c in a <==> c in b
    ensures LastTouch(a, id) == LastTouch(b, id)
  {
    hide Touches, VersionOrder;
    if LastTouch(a, id).Some? {
      LastIsLargest(b, id, LastTouch(a, id).value);
      LastIsLargest(a, id, LastTouch(b, id).value);
    }
  }
}
