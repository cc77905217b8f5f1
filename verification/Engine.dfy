/**
 * The broker's entry points (src/effect_broker/engine.py) and the contract registry behind them
 * (src/effect_broker/contracts.py): each reads and checks, then writes the shared store. Each is proved
 * to be the protocol's two steps of a submitter, a canceller or an operator.
 */
module Engine {
  import opened Prelude
  import Json
  import opened Identifiers
  import opened Models
  import opened StateMachine
  import opened Ledger
  import opened LedgerProofs
  import opened StoreContracts
  import opened MemoryStore
  import opened Protocol
  import opened ProtocolInvariant
  import Worker

  // ---------------------------------------------------------------- contracts

  /** One tool of the configuration; durations are already in microseconds. */
  datatype ContractConfig = ContractConfig(
    safety: Option<SafetyClass>,
    version: Option<string>,
    retryLimit: Option<int>,
    keyRetention: Option<int>,
    settlementBound: Option<int>)

  datatype ConfigError = UnknownSafety(tool: string) | Invalid(tool: string, error: ContractError)

  function ContractFromMapping(name: string, config: ContractConfig): Result<Contract, ConfigError> {
    if config.safety.None? then Err(UnknownSafety(name))
    else
      var contract := Contract(name, if config.version.Some? then config.version.value else "v1", config.safety.value,
                               if config.retryLimit.Some? then config.retryLimit.value else 0,
                               config.keyRetention, config.settlementBound);
      match ValidateContract(contract)
      case Some(error) => Err(Invalid(name, error))
      case None => Ok(contract)
  }

  /** A promise a target of the class can keep. */
  predicate Keepable(config: ContractConfig) {
    var limit := if config.retryLimit.Some? then config.retryLimit.value else 0;
    && config.safety.Some? && limit >= 0
    && (config.safety.value == Idempotent ==> config.keyRetention.Some? && config.keyRetention.value > 0)
    && (config.safety.value == Reconcilable ==> config.settlementBound.Some? && config.settlementBound.value >= 0)
    && (config.safety.value == Unsafe ==> limit == 0)
  }

  /** A contract says what its tool's configuration says: version v1 and no retries unless configured. */
  predicate Configured(contract: Contract, tool: string, config: ContractConfig) {
    && contract.name == tool && config.safety == Some(contract.safety)
    && contract.version == (if config.version.Some? then config.version.value else "v1")
    && contract.retryLimit == (if config.retryLimit.Some? then config.retryLimit.value else 0)
    && contract.keyRetention == config.keyRetention && contract.settlementBound == config.settlementBound
  }

  lemma MappingIsConfigured(tool: string, config: ContractConfig)
    ensures var r := ContractFromMapping(tool, config);
            && (r.Ok? <==> Keepable(config))
            && (r.Ok? ==> Configured(r.value, tool, config) && ValidateContract(r.value).None?)
            && (r.Err? ==> r.error.tool == tool && (r.error.UnknownSafety? <==> config.safety.None?))
  {
  }

  /** Builds a registry tool by tool; the first bad contract refuses the whole configuration. */
  method RegistryFromMapping(tools: seq<(string, ContractConfig)>) returns (r: Result<map<string, Contract>, ConfigError>)
    ensures r.Ok? <==> forall i :: 0 <= i < |tools| ==> Keepable(tools[i].1)
    ensures r.Ok? ==> forall t :: t in r.value <==> exists i :: 0 <= i < |tools| && tools[i].0 == t
    ensures r.Ok? ==> forall t :: t in r.value ==> exists i :: 0 <= i < |tools| && tools[i].0 == t && Configured(r.value[t], t, tools[i].1)
    ensures r.Ok? ==> forall t :: t in r.value ==> ValidateContract(r.value[t]).None?
    ensures r.Err? ==> exists i :: 0 <= i < |tools| && ContractFromMapping(tools[i].0, tools[i].1) == Err(r.error)
                                   && r.error.tool == tools[i].0 && (r.error.UnknownSafety? <==> tools[i].1.safety.None?)
                                   && !Keepable(tools[i].1) && forall j :: 0 <= j < i ==> Keepable(tools[j].1)
  {
    hide ValidateContract, ContractFromMapping, Keepable, Configured;
    var registry: map<string, Contract> := map[];
    for i := 0 to |tools|
      invariant forall t :: t in registry ==> ValidateContract(registry[t]).None?
      invariant forall t :: t in registry <==> exists j :: 0 <= j < i && tools[j].0 == t
      invariant forall t :: t in registry ==> exists j :: 0 <= j < i && tools[j].0 == t && Configured(registry[t], t, tools[j].1)
      invariant forall j :: 0 <= j < i ==> Keepable(tools[j].1)
    {
      MappingIsConfigured(tools[i].0, tools[i].1);
      var contract := ContractFromMapping(tools[i].0, tools[i].1);
      if contract.Err? {
        return Err(contract.error);
      }
      registry := registry[tools[i].0 := contract.value];
    }
    r := Ok(registry);
  }

  // ---------------------------------------------------------------- the broker

  datatype BrokerError =
    | NoContract(tool: string)
    | Unknown(effectId: string)
    | WrongVersion(effectId: string, found: nat, expected: nat)
    | NotAllowed(current: Status, target: Status)
    | Refused(error: StoreError)

  class EffectBroker {
    const store: InMemoryStore
    const contracts: map<string, Contract>

    constructor (store: InMemoryStore, contracts: map<string, Contract>)
      ensures this.store == store && this.contracts == contracts
    {
      this.store, this.contracts := store, contracts;
    }

    /** Submitting is the protocol's submission, with the contract the registry pins to the tool. */
    method Submit(tenantId: string, request: Request, now: int, ghost m: System) returns (r: Result<Reservation, BrokerError>)
      requires store.Valid() && store.Model() == m.ledger && m.clock == now
      modifies store
      ensures store.Valid()
      ensures request.tool !in contracts ==> r == Err(NoContract(request.tool)) && store.Model() == m.ledger
      ensures request.tool in contracts ==>
                var id := EffectId(old(store.nextEffectId));
                && store.Model() == Next(m, Label.Submit(id, tenantId, request, contracts[request.tool])).ledger
                && (match Reserve(m.ledger, id, tenantId, request, contracts[request.tool], now).1
                    case Ok(reservation) => r == Ok(reservation)
                    case Err(error) => r == Err(Refused(error)))
      ensures r.Ok? ==>
                && request.tool in contracts
                && Reserves(m.ledger, store.Model(), EffectId(old(store.nextEffectId)), tenantId, request, contracts[request.tool], now, Ok(r.value))
      ensures r.Err? ==> store.Model() == m.ledger
    {
      hide LedgerOk, Minted, MemoryStore.Tables.Represents, Reserve, Reserves;
      if request.tool !in contracts {
        return Err(NoContract(request.tool));
      }
      FreshId(store);
      var reserved := store.Reserve(tenantId, request, contracts[request.tool], now);
      ReservesOrNot(m.ledger, store.Model(), EffectId(old(store.nextEffectId)), tenantId, request, contracts[request.tool], now, reserved);
      r := if reserved.Ok? then Ok(reserved.value) else Err(Refused(reserved.error));
    }

    /** A cancellation at a stale version, or of work that may be in flight, is refused and changes nothing. */
    method Cancel(tenantId: string, id: string, expected: nat, who: string, reason: string, now: int, ghost m: System, ghost a: nat)
      returns (r: Result<Record, BrokerError>)
      requires store.Valid() && store.Model() == m.ledger && m.clock == now && Inv(m) && Pc(m, a).Idle?
      modifies store
      ensures store.Valid()
      ensures var m' := Next(Next(m, FetchCancel(a, tenantId, id, expected, who, reason)), Label.Cancel(a));
              store.Model() == m'.ledger && Pc(m', a).Idle?
      ensures r == if id !in m.ledger.entries || m.ledger.entries[id].record.tenantId != tenantId then Err(Unknown(id))
                   else
                     var effect := m.ledger.entries[id].record;
                     if effect.version != expected then Err(WrongVersion(id, effect.version, expected))
                     else if effect.status !in {Prepared, Retryable} then Err(NotAllowed(effect.status, Cancelled))
                     else Ok(effect.(status := Cancelled, version := expected + 1, updatedAt := now))
      ensures r.Err? ==> store.Model() == m.ledger
      ensures r.Ok? ==>
                Writes(m.ledger, store.Model(), id, expected, Cancelled,
                       map["actor" := Json.JStr(who), "reason" := Json.JStr(reason)], now, Ok(r.value))
    {
      hide LedgerOk, Minted, MemoryStore.Tables.Represents, UniqueOwners, ActorsOk, Transition, Writes, Next,
           InMemoryStore.Valid, InMemoryStore.Model;
      FetchedId(m, tenantId, id);
      CancelWorks(m, a, tenantId, id, expected, who, reason);
      var found := store.Get(tenantId, id);
      if found.None? {
        return Err(Unknown(id));
      }
      var effect := found.value;
      if effect.version != expected {
        return Err(WrongVersion(id, effect.version, expected));
      }
      if !Claimable(effect.status) {
        return Err(NotAllowed(effect.status, Cancelled));
      }
      var data := map["actor" := Json.JStr(who), "reason" := Json.JStr(reason)];
      var cancelled := store.Transition(effect.effectId, expected, Cancelled, data, now);
      WritesRecord(m.ledger, store.Model(), id, expected, Cancelled, data, now, cancelled);
      r := Ok(cancelled.value);
    }

    /** An operator decides an effect in manual review, once. */
    method Resolve(tenantId: string, id: string, resolution: Status, evidence: Metadata, now: int, ghost m: System, ghost a: nat)
      returns (r: Result<Record, BrokerError>)
      requires store.Valid() && store.Model() == m.ledger && m.clock == now && Inv(m) && Pc(m, a).Idle?
      modifies store
      ensures store.Valid()
      ensures var m' := Next(Next(m, FetchResolve(a, tenantId, id, resolution, evidence)), Label.Resolve(a));
              store.Model() == m'.ledger && Pc(m', a).Idle?
      ensures r == if id !in m.ledger.entries || m.ledger.entries[id].record.tenantId != tenantId then Err(Unknown(id))
                   else
                     var effect := m.ledger.entries[id].record;
                     if effect.status != ManualReview || resolution !in {Succeeded, FailedFinal, Compensated} then
                       Err(NotAllowed(effect.status, resolution))
                     else Ok(effect.(status := resolution, version := effect.version + 1, updatedAt := now))
      ensures r.Err? ==> store.Model() == m.ledger
      ensures r.Ok? ==>
                Writes(m.ledger, store.Model(), id, m.ledger.entries[id].record.version, resolution,
                       map["evidence" := Json.JObj(evidence), "actor" := Json.JStr("operator")], now, Ok(r.value))
    {
      hide LedgerOk, Minted, MemoryStore.Tables.Represents, UniqueOwners, ActorsOk, Transition, Writes, Next,
           InMemoryStore.Valid, InMemoryStore.Model;
      FetchedId(m, tenantId, id);
      ResolveWorks(m, a, tenantId, id, resolution, evidence);
      var found := store.Get(tenantId, id);
      if found.None? {
        return Err(Unknown(id));
      }
      var effect := found.value;
      if effect.status != ManualReview {
        return Err(NotAllowed(effect.status, resolution));
      }
      if resolution !in {Succeeded, FailedFinal, Compensated} {
        return Err(NotAllowed(effect.status, resolution));
      }
      var resolved := store.Transition(effect.effectId, effect.version, resolution, OperatorData(evidence), now);
      WritesRecord(m.ledger, store.Model(), id, effect.version, resolution, OperatorData(evidence), now, resolved);
      r := Ok(resolved.value);
    }
  }

  lemma FreshId(store: InMemoryStore)
    requires store.Valid()
    ensures EffectId(store.nextEffectId) !in store.Model().entries
  {
    hide LedgerOk, Minted, EffectId;
    FreshEffectId(store.records, store.nextEffectId);
  }

  lemma ReservesOrNot(l: Ledger, l': Ledger, id: string, tenantId: string, request: Request, contract: Contract, now: int,
                      r: Result<Reservation, StoreError>)
    requires Reserves(l, l', id, tenantId, request, contract, now, r)
    ensures r.Err? ==> l' == l
  {
  }

  lemma FetchedId(m: System, tenantId: string, id: string)
    requires Inv(m)
    ensures Get(m.ledger, tenantId, id).Some? ==> Get(m.ledger, tenantId, id).value.effectId == id
  {
    hide ActorsOk, UniqueOwners, LedgerOk;
    if id in m.ledger.entries {
      EntryFacts(m.ledger, id);
    }
  }

  /** An accepted write returns the record it wrote. */
  lemma WritesRecord(l: Ledger, l': Ledger, id: string, expected: nat, target: Status, data: Metadata, now: int, r: Result<Record, StoreError>)
    requires Writes(l, l', id, expected, target, data, now, r) && r.Ok?
    ensures id in l.entries && r.value == l.entries[id].record.(status := target, version := expected + 1, updatedAt := now)
  {
  }

  /** What a fetched record becomes when its fenced write goes through. */
  lemma FetchedWrite(m: System, tenantId: string, id: string, target: Status, data: Metadata)
    requires Inv(m) && Get(m.ledger, tenantId, id).Some? && Allowed(Get(m.ledger, tenantId, id).value.status, target)
    ensures var rec := Get(m.ledger, tenantId, id).value;
            var (l, r) := Transition(m.ledger, rec.effectId, rec.version, target, data, m.clock);
            && rec.effectId == id && id in m.ledger.entries && rec == m.ledger.entries[id].record
            && r.Ok? && r.value.status == target && Get(l, tenantId, id) == Some(r.value)
  {
    hide EntryOk, IdentityOk, OrderOk, ActorsOk, UniqueOwners;
    EntryFacts(m.ledger, id);
  }

  lemma CancelWorks(m: System, a: nat, tenantId: string, id: string, expected: nat, who: string, reason: string)
    requires Inv(m) && Pc(m, a).Idle?
    ensures var found := Get(m.ledger, tenantId, id);
            var m' := Next(Next(m, FetchCancel(a, tenantId, id, expected, who, reason)), Label.Cancel(a));
            var data := map["actor" := Json.JStr(who), "reason" := Json.JStr(reason)];
            && Pc(m', a).Idle?
            && if found.Some? && found.value.version == expected && Claimable(found.value.status) then
                 var (l, r) := Transition(m.ledger, found.value.effectId, expected, Cancelled, data, m.clock);
                 m'.ledger == l && r.Ok? && r.value.status == Cancelled && Get(l, tenantId, id) == Some(r.value)
               else m'.ledger == m.ledger
  {
    hide Inv, Transition, Swap, Next, Pc, Put;
    var found := Get(m.ledger, tenantId, id);
    var data := map["actor" := Json.JStr(who), "reason" := Json.JStr(reason)];
    FetchedCancel(m, a, tenantId, id, expected, who, reason);
    if found.Some? && found.value.version == expected && Claimable(found.value.status) {
      FetchedWrite(m, tenantId, id, Cancelled, data);
      WritesOnce(m, a, found.value, Cancelled, data, Cancelling(found.value, data), Label.Cancel(a));
    }
  }

  /** Fetching for a cancellation, and what a cancellation does when there is nothing to cancel. */
  lemma FetchedCancel(m: System, a: nat, tenantId: string, id: string, expected: nat, who: string, reason: string)
    requires Pc(m, a).Idle?
    ensures var found := Get(m.ledger, tenantId, id);
            var m1 := Next(m, FetchCancel(a, tenantId, id, expected, who, reason));
            var data := map["actor" := Json.JStr(who), "reason" := Json.JStr(reason)];
            if found.Some? && found.value.version == expected && Claimable(found.value.status) then
              m1 == Put(m, a, Cancelling(found.value, data))
            else m1 == m && Next(m1, Label.Cancel(a)) == m && Pc(m, a).Idle?
  {
  }

  lemma FetchedResolve(m: System, a: nat, tenantId: string, id: string, resolution: Status, evidence: Metadata)
    requires Pc(m, a).Idle?
    ensures var found := Get(m.ledger, tenantId, id);
            var m1 := Next(m, FetchResolve(a, tenantId, id, resolution, evidence));
            if Resolvable(found, resolution) then m1 == Put(m, a, Resolving(found.value, resolution, OperatorData(evidence)))
            else m1 == m && Next(m1, Label.Resolve(a)) == m && Pc(m, a).Idle?
  {
    hide OperatorData;
  }

  /** A canceller's or an operator's one write over a record nobody else has written. */
  lemma WritesOnce(m: System, a: nat, rec: Record, target: Status, data: Metadata, p: Actor, l: Label)
    requires rec.effectId in m.ledger.entries && rec == m.ledger.entries[rec.effectId].record && Allowed(rec.status, target)
    requires (p == Cancelling(rec, data) && target == Cancelled && l == Label.Cancel(a))
          || (p == Resolving(rec, target, data) && l == Label.Resolve(a))
    ensures var (ledger, r) := Transition(m.ledger, rec.effectId, rec.version, target, data, m.clock);
            var m' := Next(Put(m, a, p), l);
            r.Ok? && m'.ledger == ledger && Pc(m', a).Idle?
  {
    hide Transition, Swap, Allowed;
    Worker.SwapWins(Put(m, a, p), a, rec, target, data, _ => Idle, Idle);
  }

  predicate Resolvable(found: Option<Record>, resolution: Status) {
    found.Some? && found.value.status == ManualReview && resolution in {Succeeded, FailedFinal, Compensated}
  }

  lemma ResolveWorks(m: System, a: nat, tenantId: string, id: string, resolution: Status, evidence: Metadata)
    requires Inv(m) && Pc(m, a).Idle?
    ensures var found := Get(m.ledger, tenantId, id);
            var m' := Next(Next(m, FetchResolve(a, tenantId, id, resolution, evidence)), Label.Resolve(a));
            && Pc(m', a).Idle?
            && if Resolvable(found, resolution) then
                 var (l, r) := Transition(m.ledger, found.value.effectId, found.value.version, resolution, OperatorData(evidence), m.clock);
                 m'.ledger == l && r.Ok? && r.value.status == resolution && Get(l, tenantId, id) == Some(r.value)
               else m'.ledger == m.ledger
  {
    hide Inv, Transition, Swap, OperatorData, Next, Pc, Put;
    var found := Get(m.ledger, tenantId, id);
    FetchedResolve(m, a, tenantId, id, resolution, evidence);
    if Resolvable(found, resolution) {
      var data := OperatorData(evidence);
      FetchedWrite(m, tenantId, id, resolution, data);
      WritesOnce(m, a, found.value, resolution, data, Resolving(found.value, resolution, data), Label.Resolve(a));
    }
  }
}
