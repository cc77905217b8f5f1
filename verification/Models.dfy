/** Domain vocabulary (src/effect_broker/models.py, errors.py, contracts.py). Times and durations count microseconds. */
module Models {
  import opened Prelude
  import opened Json
  import opened PyValues
  import Canonical
  import opened Identity

  datatype SafetyClass = Transactional | Idempotent | Reconcilable | Unsafe

  datatype Status =
    | Prepared
    | Cancelled
    | Dispatching
    | Retryable
    | OutcomeUnknown
    | Reconciling
    | Succeeded
    | FailedFinal
    | ManualReview
    | Compensated

  datatype Request = Request(
    operationKey: string,
    tool: string,
    arguments: PyValue,
    requestedBy: string,
    traceId: Option<string>)

  datatype Contract = Contract(
    name: string,
    version: string,
    safety: SafetyClass,
    retryLimit: int,
    keyRetention: Option<int>,
    settlementBound: Option<int>)

  datatype Record = Record(
    effectId: string,
    tenantId: string,
    request: Request,
    requestHash: Digest,
    downstreamKey: DownstreamKey,
    contract: Contract,
    status: Status,
    version: nat,
    createdAt: int,
    updatedAt: int)

  datatype Reservation = Reservation(effect: Record, created: bool, replayed: bool)

  /** Free-form facts recorded with a transition. */
  type Metadata = map<string, Json>

  datatype StoreError =
    | UnknownEffect(effectId: string)
    | VersionConflict(effectId: string)
    | InvalidTransition(current: Status, target: Status)
    | PayloadConflict(operationKey: string, existing: Digest, incoming: Digest)
    | NotCanonical(reason: Canonical.CanonicalError)

  datatype ContractError =
    | NegativeRetryLimit
    | RetentionRequired
    | SettlementRequired
    | UnsafeMustNotRetry

  /** Contract validation: None when the promise is one the target can keep. */
  function ValidateContract(c: Contract): Option<ContractError> {
    if c.retryLimit < 0 then Some(NegativeRetryLimit)
    else if c.safety == Idempotent then
      if c.keyRetention.None? || c.keyRetention.value <= 0 then Some(RetentionRequired) else None
    else if c.safety == Reconcilable then
      if c.settlementBound.None? || c.settlementBound.value < 0 then Some(SettlementRequired) else None
    else if c.safety == Unsafe && c.retryLimit != 0 then Some(UnsafeMustNotRetry)
    else None
  }

  /** The fields of a record that no store operation ever changes. */
  predicate SamePinned(a: Record, b: Record) {
    && a.effectId == b.effectId
    && a.tenantId == b.tenantId
    && a.request == b.request
    && a.requestHash == b.requestHash
    && a.downstreamKey == b.downstreamKey
    && a.contract == b.contract
    && a.createdAt == b.createdAt
  }
}

/** The status graph (src/effect_broker/statemachine.py). */
module StateMachine {
  import opened Prelude
  import opened Models

  function Successors(s: Status): set<Status> {
    match s
    case Prepared => {Dispatching, Cancelled}
    case Dispatching => {Succeeded, FailedFinal, Retryable, OutcomeUnknown}
    case Retryable => {Dispatching, FailedFinal, Cancelled}
    case OutcomeUnknown => {Dispatching, Reconciling, ManualReview}
    case Reconciling => {Succeeded, Prepared, ManualReview, FailedFinal}
    case ManualReview => {Succeeded, FailedFinal, Compensated}
    case Succeeded => {}
    case FailedFinal => {}
    case Compensated => {}
    case Cancelled => {}
  }

  predicate Allowed(current: Status, target: Status) {
    target in Successors(current)
  }

  predicate Terminal(s: Status) {
    s in {Cancelled, Succeeded, FailedFinal, Compensated}
  }

  /** Statuses a worker may claim from. */
  predicate Claimable(s: Status) {
    s in {Prepared, Retryable}
  }

  /** Where an effect of unknown outcome goes next, by safety class alone. */
  function RouteUnknown(safety: SafetyClass): Status {
    match safety
    case Idempotent => Dispatching
    case Reconcilable => Reconciling
    case Transactional => Reconciling
    case Unsafe => ManualReview
  }
}
