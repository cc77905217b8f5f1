/**
 * The unknown-effect gauges (src/effect_broker/observability.py): an index updated transition by
 * transition, against a plain recount of the ledger.
 */
module Observability {
  import opened Prelude
  import opened Models
  import opened StateMachine
  import opened Ledger
  import Spec = Ledger
  import opened LedgerProofs
  import opened StoreContracts
  import opened ProtocolInvariant
  import opened MemoryStore
  import StoresAgree
  import PostgresTransition

  type Pair = (string, SafetyClass)

  datatype Tracked = Tracked(contract: string, safety: SafetyClass, createdAt: int)

  function UnknownKey(r: Record): Tracked {
    Tracked(r.contract.name, r.contract.safety, r.createdAt)
  }

  function PairOf(t: Tracked): Pair {
    (t.contract, t.safety)
  }

  type Index = map<string, Tracked>

  /** The index after one recorded transition. */
  function Track(index: Index, before: Record, after: Record): Index {
    if before.status == after.status then index
    else if after.status == OutcomeUnknown then index[after.effectId := UnknownKey(after)]
    else if before.status == OutcomeUnknown then index - {before.effectId}
    else index
  }

  function Members(index: Index, pair: Pair): set<string> {
    set id | id in index && PairOf(index[id]) == pair
  }

  /** The effects of unknown outcome with a contract and safety class, counted from the ledger. */
  function Recount(l: Ledger, pair: Pair): set<string> {
    set id | id in l.entries && l.entries[id].record.status == OutcomeUnknown
             && l.entries[id].record.contract.name == pair.0 && l.entries[id].record.contract.safety == pair.1
  }

  /** The age of the oldest effect of unknown outcome with a contract and safety class, counted from its creation; 0 without one. */
  ghost predicate OldestUnknown(l: Ledger, pair: Pair, now: int, age: int) {
    && age >= 0
    && (forall id :: id in Recount(l, pair) ==> now - l.entries[id].record.createdAt <= age)
    && (age == 0 || exists id :: id in Recount(l, pair) && age == now - l.entries[id].record.createdAt)
  }

  /** The index lists exactly the effects of unknown outcome. */
  ghost predicate Mirrors(index: Index, l: Ledger) {
    && (forall id :: id in index <==> id in l.entries && l.entries[id].record.status == OutcomeUnknown)
    && (forall id :: id in index ==> index[id] == UnknownKey(l.entries[id].record))
  }

  lemma MirrorsCount(index: Index, l: Ledger, pair: Pair)
    requires Mirrors(index, l)
    ensures Members(index, pair) == Recount(l, pair)
  {
  }

  /** The same age, read off the index. */
  ghost predicate Aged(index: Index, pair: Pair, now: int, age: int) {
    && age >= 0
    && (forall id :: id in Members(index, pair) ==> now - index[id].createdAt <= age)
    && (age == 0 || exists id :: id in Members(index, pair) && age == now - index[id].createdAt)
  }

  lemma MirrorsAge(index: Index, l: Ledger, pair: Pair, now: int, age: int)
    requires Mirrors(index, l) && Aged(index, pair, now, age)
    ensures OldestUnknown(l, pair, now, age)
  {
    hide Members, Recount;
    MirrorsCount(index, l, pair);
    MembersIndexed(index, pair);
  }

  lemma MembersIndexed(index: Index, pair: Pair)
    ensures forall id :: id in Members(index, pair) ==> id in index
  {
  }

  // ---------------------------------------------------------------- which writes keep the index true

  /** A recorded write keeps it, whatever it is. */
  lemma RecordedMirrors(l: Ledger, index: Index, id: string, expected: nat, target: Status, data: Metadata, now: int)
    requires LedgerOk(l) && Mirrors(index, l)
    requires Spec.Transition(l, id, expected, target, data, now).1.Ok?
    ensures var (l', r) := Spec.Transition(l, id, expected, target, data, now);
            id in l.entries && Mirrors(Track(index, l.entries[id].record, r.value), l')
  {
    hide LedgerOk, PairOf, UnknownKey, MoveEntry, Allowed, Spec.Transition;
    MovedRecord(l, id, expected, target, data, now);
    var (l', r) := Spec.Transition(l, id, expected, target, data, now);
    SameKey(l.entries[id].record, r.value);
  }

  lemma SameKey(r: Record, r': Record)
    requires SamePinned(r, r')
    ensures UnknownKey(r) == UnknownKey(r')
  {
  }

  /** A write that is not recorded keeps it exactly when it neither enters nor leaves OUTCOME_UNKNOWN. */
  lemma SilentMirrorsIff(l: Ledger, index: Index, id: string, expected: nat, target: Status, data: Metadata, now: int)
    requires LedgerOk(l) && Mirrors(index, l)
    requires Spec.Transition(l, id, expected, target, data, now).1.Ok?
    ensures id in l.entries
    ensures Mirrors(index, Spec.Transition(l, id, expected, target, data, now).0) <==>
            l.entries[id].record.status != OutcomeUnknown && target != OutcomeUnknown
  {
    hide LedgerOk, UnknownKey, MoveEntry, Allowed, Spec.Transition, Mirrors;
    MovedRecord(l, id, expected, target, data, now);
    var (l', r) := Spec.Transition(l, id, expected, target, data, now);
    SameKey(l.entries[id].record, r.value);
    UnknownNeverStays(l.entries[id].record.status, target);
    MirrorsMovedIff(l, l', index, id);
  }

  lemma UnknownNeverStays(current: Status, target: Status)
    requires Allowed(current, target)
    ensures !(current == OutcomeUnknown && target == OutcomeUnknown)
  {
  }

  lemma MirrorsMovedIff(l: Ledger, l': Ledger, index: Index, id: string)
    requires Mirrors(index, l) && id in l.entries && id in l'.entries && l'.entries == l.entries[id := l'.entries[id]]
    requires UnknownKey(l.entries[id].record) == UnknownKey(l'.entries[id].record)
    ensures Mirrors(index, l') <==>
            (l.entries[id].record.status == OutcomeUnknown <==> l'.entries[id].record.status == OutcomeUnknown)
  {
    hide UnknownKey;
    assert id in index <==> l.entries[id].record.status == OutcomeUnknown;
    if l.entries[id].record.status == OutcomeUnknown <==> l'.entries[id].record.status == OutcomeUnknown {
      forall x
        ensures x in index <==> x in l'.entries && l'.entries[x].record.status == OutcomeUnknown
        ensures x in index ==> index[x] == UnknownKey(l'.entries[x].record)
      {
        assert x != id ==> (x in l'.entries <==> x in l.entries);
      }
    }
  }

  /** Reservations, claims and attempts change no status, and what they add is PREPARED. */
  lemma OtherOperationKeeps(l: Ledger, newId: string, op: StoresAgree.Operation, id: string)
    requires !op.Moving? && newId !in l.entries
    ensures var l' := StoresAgree.Apply(l, newId, op).0;
            && (id in l.entries ==>
                  && id in l'.entries && l'.entries[id].record.status == l.entries[id].record.status
                  && SamePinned(l.entries[id].record, l'.entries[id].record))
            && (id !in l.entries && id in l'.entries ==> l'.entries[id].record.status == Prepared)
  {
    hide FirstDue, Identity.RequestHash, Identity.OperationKeyOf, Identifiers.AttemptId, ReceiptFor, Appended, ClaimedRecords, Due;
  }

  lemma OtherOperationsMirror(l: Ledger, index: Index, newId: string, op: StoresAgree.Operation)
    requires Mirrors(index, l) && !op.Moving? && newId !in l.entries
    ensures Mirrors(index, StoresAgree.Apply(l, newId, op).0)
  {
    hide StoresAgree.Apply, UnknownKey;
    var l' := StoresAgree.Apply(l, newId, op).0;
    forall id
      ensures id in index <==> id in l'.entries && l'.entries[id].record.status == OutcomeUnknown
      ensures id in index ==> index[id] == UnknownKey(l'.entries[id].record)
    {
      OtherOperationKeeps(l, newId, op, id);
      if id in l.entries {
        SameKey(l.entries[id].record, l'.entries[id].record);
      }
    }
  }

  /** One thing that happens to the store: a write its caller records, or anything else. */
  datatype Observed =
    | Recorded(id: string, expected: nat, target: Status, data: Metadata, now: int)
    | Silent(newId: string, op: StoresAgree.Operation)

  function ObserveOne(l: Ledger, index: Index, step: Observed): (Ledger, Index) {
    match step
    case Silent(newId, op) => if newId in l.entries then (l, index) else (StoresAgree.Apply(l, newId, op).0, index)
    case Recorded(id, expected, target, data, now) =>
      var (l', r) := Spec.Transition(l, id, expected, target, data, now);
      (l', if r.Ok? && id in l.entries then Track(index, l.entries[id].record, r.value) else index)
  }

  /** Nothing unrecorded enters or leaves OUTCOME_UNKNOWN: operators do not, MarkUnknown would. */
  ghost predicate Harmless(l: Ledger, step: Observed) {
    step.Silent? && step.op.Moving? ==>
      var op := step.op;
      Spec.Transition(l, op.id, op.expected, op.target, op.data, op.now).1.Ok? && op.id in l.entries ==>
        l.entries[op.id].record.status != OutcomeUnknown && op.target != OutcomeUnknown
  }

  function ObserveAll(l: Ledger, index: Index, steps: seq<Observed>): (Ledger, Index) {
    if steps == [] then (l, index)
    else
      var (before, listed) := ObserveAll(l, index, steps[..|steps| - 1]);
      ObserveOne(before, listed, steps[|steps| - 1])
  }

  ghost predicate AllHarmless(l: Ledger, index: Index, steps: seq<Observed>) {
    forall i :: 0 <= i < |steps| ==> Harmless(ObserveAll(l, index, steps[..i]).0, steps[i])
  }

  lemma ObserveOneMirrors(l: Ledger, index: Index, step: Observed)
    requires LedgerOk(l) && Mirrors(index, l) && Harmless(l, step)
    ensures LedgerOk(ObserveOne(l, index, step).0) && Mirrors(ObserveOne(l, index, step).1, ObserveOne(l, index, step).0)
  {
    hide LedgerOk, Mirrors, Track, MoveEntry, Allowed, Grows;
    match step
    case Recorded(id, expected, target, data, now) =>
      TransitionKeepsLedger(l, id, expected, target, data, now);
      if Spec.Transition(l, id, expected, target, data, now).1.Ok? {
        RecordedMirrors(l, index, id, expected, target, data, now);
      }
    case Silent(newId, op) =>
      if newId !in l.entries {
        PostgresTransition.ApplyGrows(l, newId, op);
        if !op.Moving? {
          OtherOperationsMirror(l, index, newId, op);
        } else if Spec.Transition(l, op.id, op.expected, op.target, op.data, op.now).1.Ok? {
          SilentMirrorsIff(l, index, op.id, op.expected, op.target, op.data, op.now);
        }
      }
  }

  /**
   * After any run in which every write into or out of OUTCOME_UNKNOWN was recorded, the index counts
   * for each contract and safety class exactly the effects of unknown outcome, 0 included.
   */
  lemma {:induction false} IndexIsRecount(l: Ledger, index: Index, steps: seq<Observed>, pair: Pair)
    requires LedgerOk(l) && Mirrors(index, l) && AllHarmless(l, index, steps)
    ensures var (l', index') := ObserveAll(l, index, steps);
            LedgerOk(l') && Mirrors(index', l') && Members(index', pair) == Recount(l', pair)
  {
    hide LedgerOk, Mirrors, Members, Recount, Harmless, ObserveOne;
    if steps == [] {
      MirrorsCount(index, l, pair);
    } else {
      var front := steps[..|steps| - 1];
      forall i | 0 <= i < |front|
        ensures Harmless(ObserveAll(l, index, front[..i]).0, front[i])
      {
        assert front[..i] == steps[..i];
      }
      IndexIsRecount(l, index, front, pair);
      var (before, listed) := ObserveAll(l, index, front);
      assert steps[..|steps| - 1] == front;
      ObserveOneMirrors(before, listed, steps[|steps| - 1]);
      MirrorsCount(ObserveAll(l, index, steps).1, ObserveAll(l, index, steps).0, pair);
    }
  }

  // ---------------------------------------------------------------- the gauges in place

  class UnknownGauges {
    var index: Index
    var counts: map<Pair, nat>
    var oldestAges: map<Pair, int>
    var fencedStaleWrites: nat

    constructor ()
      ensures index == map[] && counts == map[] && oldestAges == map[] && fencedStaleWrites == 0
      ensures Valid()
    {
      index, counts, oldestAges, fencedStaleWrites := map[], map[], map[], 0;
      new;
      forall pair: Pair
        ensures Count(pair) == |Members(index, pair)| && Age(pair) == 0
      {
        assert Members(index, pair) == {};
      }
    }

    /** A gauge never set reads 0. */
    function Count(pair: Pair): nat
      reads this
    {
      if pair in counts then counts[pair] else 0
    }

    function Age(pair: Pair): int
      reads this
    {
      if pair in oldestAges then oldestAges[pair] else 0
    }

    /** Every gauge shows how many indexed effects have its labels, and an age only where there is one. */
    ghost predicate Valid()
      reads this
    {
      forall pair: Pair :: Count(pair) == |Members(index, pair)| && (Members(index, pair) == {} ==> Age(pair) == 0)
    }

    /** The age of the oldest listed effect, never negative. */
    method OldestAge(members: set<string>, now: int) returns (age: int)
      requires members <= index.Keys
      ensures members == {} ==> age == 0
      ensures age >= 0
      ensures forall id :: id in members ==> now - index[id].createdAt <= age
      ensures members != {} ==> age == 0 || exists id :: id in members && age == now - index[id].createdAt
    {
      age := 0;
      var rest := members;
      while rest != {}
        invariant rest <= members && age >= 0
        invariant forall id :: id in members - rest ==> now - index[id].createdAt <= age
        invariant age == 0 || exists id :: id in members - rest && age == now - index[id].createdAt
        decreases |rest|
      {
        var id :| id in rest;
        rest := rest - {id};
        if now - index[id].createdAt > age {
          age := now - index[id].createdAt;
        }
        assert id in members - rest;
      }
    }

    /** Sets the gauges of some labels, and of no others. */
    method Refresh(labels: set<Pair>, now: int)
      modifies this`counts, this`oldestAges
      ensures forall pair :: pair in labels ==> Count(pair) == |Members(index, pair)| && Aged(index, pair, now, Age(pair))
      ensures forall pair :: pair !in labels ==>
                && (pair in counts <==> pair in old(counts)) && (pair in counts ==> counts[pair] == old(counts)[pair])
                && (pair in oldestAges <==> pair in old(oldestAges)) && (pair in oldestAges ==> oldestAges[pair] == old(oldestAges)[pair])
    {
      hide Members, Aged;
      var rest := labels;
      while rest != {}
        invariant rest <= labels
        invariant forall pair :: pair in labels - rest ==> Count(pair) == |Members(index, pair)| && Aged(index, pair, now, Age(pair))
        invariant forall pair :: pair !in labels ==>
                    && (pair in counts <==> pair in old(counts)) && (pair in counts ==> counts[pair] == old(counts)[pair])
                    && (pair in oldestAges <==> pair in old(oldestAges)) && (pair in oldestAges ==> oldestAges[pair] == old(oldestAges)[pair])
        decreases |rest|
      {
        var pair :| pair in rest;
        rest := rest - {pair};
        var members := Members(index, pair);
        counts := counts[pair := |members|];
        MembersIndexed(index, pair);
        var age := OldestAge(members, now);
        AgedNow(index, pair, now, age);
        oldestAges := oldestAges[pair := age];
      }
    }

    /** Updates the index, then refreshes the gauges of both records and of everything still indexed. */
    method TrackUnknown(before: Record, after: Record, now: int)
      requires Valid() && before.status != after.status && before.effectId == after.effectId
      requires before.effectId in index ==> index[before.effectId] == UnknownKey(before)
      modifies this`index, this`counts, this`oldestAges
      ensures Valid() && index == Track(old(index), before, after)
      ensures forall pair: Pair :: Aged(index, pair, now, Age(pair))
    {
      hide Members, Aged;
      ghost var was := index;
      if after.status == OutcomeUnknown {
        index := index[after.effectId := UnknownKey(after)];
      } else if before.status == OutcomeUnknown {
        index := index - {before.effectId};
      }
      var labels := {PairOf(UnknownKey(before)), PairOf(UnknownKey(after))} + set id | id in index :: PairOf(index[id]);
      Refresh(labels, now);
      forall pair: Pair
        ensures Count(pair) == |Members(index, pair)| && Aged(index, pair, now, Age(pair))
        ensures Members(index, pair) == {} ==> Age(pair) == 0
      {
        if pair !in labels {
          UnlistedUnchanged(was, before, after, pair);
          AgedNow(index, pair, now, 0);
        }
        if Members(index, pair) == {} {
          AgedNothing(index, pair, now, Age(pair));
        }
      }
    }

    /** Only a change of status is tracked. */
    method RecordTransition(before: Record, after: Record, now: int)
      requires Valid() && before.effectId == after.effectId
      requires before.effectId in index ==> index[before.effectId] == UnknownKey(before)
      modifies this`index, this`counts, this`oldestAges
      ensures Valid() && index == Track(old(index), before, after)
      ensures before.status != after.status ==> forall pair: Pair :: Aged(index, pair, now, Age(pair))
    {
      hide Aged, Members;
      if before.status != after.status {
        TrackUnknown(before, after, now);
      }
    }
  }

  lemma AgedNow(index: Index, pair: Pair, now: int, age: int)
    requires age >= 0
    requires forall id :: id in Members(index, pair) ==> id in index && now - index[id].createdAt <= age
    requires age == 0 || exists id :: id in Members(index, pair) && age == now - index[id].createdAt
    ensures Aged(index, pair, now, age)
  {
  }

  lemma AgedNothing(index: Index, pair: Pair, now: int, age: int)
    requires Aged(index, pair, now, age) && Members(index, pair) == {}
    ensures age == 0
  {
  }

  /** Labels of neither record and of nothing indexed have no members, before and after. */
  lemma UnlistedUnchanged(index: Index, before: Record, after: Record, pair: Pair)
    requires before.effectId == after.effectId
    requires before.effectId in index ==> index[before.effectId] == UnknownKey(before)
    requires pair != PairOf(UnknownKey(before)) && pair != PairOf(UnknownKey(after))
    requires forall id :: id in Track(index, before, after) ==> PairOf(Track(index, before, after)[id]) != pair
    ensures Members(Track(index, before, after), pair) == {} && Members(index, pair) == {}
  {
    forall id | id in index
      ensures PairOf(index[id]) != pair
    {
      if id != before.effectId {
        assert id in Track(index, before, after) && Track(index, before, after)[id] == index[id];
      }
    }
  }

  /** Every edge of the status graph changes the status. */
  lemma NoLoop(current: Status, target: Status)
    requires Allowed(current, target)
    ensures current != target
  {
  }

  /** The one way workers and reconcilers write: transition, then record what happened. */
  method TransitionAndRecord(store: InMemoryStore, gauges: UnknownGauges, before: Record, target: Status, data: Metadata, now: int)
    returns (r: Result<Record, StoreError>)
    requires store.Valid() && gauges.Valid() && Mirrors(gauges.index, store.Model()) && SnapOk(store.Model(), before)
    modifies store, gauges
    ensures store.Valid() && gauges.Valid() && Mirrors(gauges.index, store.Model())
    ensures (store.Model(), r) == Spec.Transition(old(store.Model()), before.effectId, before.version, target, data, now)
    ensures gauges.fencedStaleWrites == old(gauges.fencedStaleWrites) + if r.Err? && r.error.VersionConflict? then 1 else 0
    ensures forall pair: Pair :: gauges.Count(pair) == |Recount(store.Model(), pair)|
    ensures r.Ok? ==> forall pair: Pair :: OldestUnknown(store.Model(), pair, now, gauges.Age(pair))
  {
    hide LedgerOk, Minted, MemoryStore.Tables.Represents, MoveEntry, Allowed, Members, Recount, Track, Writes, Aged, OldestUnknown;
    ghost var l, index := store.Model(), gauges.index;
    r := store.Transition(before.effectId, before.version, target, data, now);
    if r.Err? {
      if r.error.VersionConflict? {
        gauges.fencedStaleWrites := gauges.fencedStaleWrites + 1;
      }
    } else {
      RecordedMirrors(l, index, before.effectId, before.version, target, data, now);
      MovedRecord(l, before.effectId, before.version, target, data, now);
      NoLoop(before.status, target);
      gauges.RecordTransition(before, r.value, now);
    }
    forall pair: Pair
      ensures gauges.Count(pair) == |Recount(store.Model(), pair)|
      ensures r.Ok? ==> OldestUnknown(store.Model(), pair, now, gauges.Age(pair))
    {
      MirrorsCount(gauges.index, store.Model(), pair);
      if r.Ok? {
        MirrorsAge(gauges.index, store.Model(), pair, now, gauges.Age(pair));
      }
    }
  }
}
