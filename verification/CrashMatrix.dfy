/**
 * The crash matrix (examples/crash_matrix/worker.py, runner.py): a worker dies somewhere between claim
 * and receipt, its effect is marked unknown, and any number of recoverers then run concurrently, in any
 * interleaving, over one ledger and one durable target.
 */
module CrashMatrix {
  import opened Prelude
  import Identifiers
  import opened PyValues
  import opened Canonical
  import opened Models
  import opened StateMachine
  import opened Ledger
  import opened LedgerProofs
  import opened Target
  import opened DurableTarget
  import opened ProtocolInvariant
  import Protocol
  import Reconciler

  datatype Failure = Missing | Refused(error: StoreError)

  /** One recovery process: it reads the effect once, checks the key's retention, then follows the reconciler. */
  datatype Recoverer =
    | Waiting
    | Fetched(rec: Record)
    | Checked(rec: Record, at: int)
    | Redispatching(rec: Record)
    | Attempted(rec: Record, attemptId: string)
    | Answered(rec: Record, attemptId: string, answer: Protocol.Answer)
    | Probing(rec: Record)
    | Judging(rec: Record, verdict: Verdict)
    | Returned(status: Status)
    | Failed(error: Failure)

  datatype Matrix = Matrix(clock: int, ledger: Ledger, target: Durable, recoverers: seq<Recoverer>)

  datatype Turn = Go(i: nat) | Wait(now: int)

  /** What is recovered, and what held when recovery began. */
  datatype Base = Base(unknown: Record, attempts: nat, target: Durable, clock: int)

  // ---------------------------------------------------------------- steps

  function AnswerOf(r: Result<string, CanonicalError>): Protocol.Answer {
    match r
    case Ok(x) => Protocol.Confirmed(x)
    case Err(_) => Protocol.Ambiguous("CanonicalizationError")
  }

  function Wrote(r: Result<Record, StoreError>): Recoverer {
    match r
    case Err(error) => Failed(Refused(error))
    case Ok(moved) =>
      match moved.status
      case Dispatching => Redispatching(moved)
      case Reconciling => Probing(moved)
      case _ => Returned(moved.status)
  }

  function Ended(r: Result<Record, StoreError>): Recoverer {
    if r.Ok? then Returned(r.value.status) else Failed(Refused(r.error))
  }

  /** The next atomic step of one recoverer. */
  function Recover(m: Matrix, p: Recoverer, tenantId: string, id: string): (Ledger, Durable, Recoverer) {
    match p
    case Waiting =>
      var found := Get(m.ledger, tenantId, id);
      (m.ledger, m.target, if found.Some? then Fetched(found.value) else Failed(Missing))
    case Fetched(rec) => (m.ledger, m.target, Checked(rec, m.clock))
    case Checked(rec, at) =>
      var (target, data) := Reconciler.FirstWrite(rec, at);
      var (l, r) := Transition(m.ledger, rec.effectId, rec.version, target, data, m.clock);
      (l, m.target, Wrote(r))
    case Redispatching(rec) =>
      var (l, r) := StartAttempt(m.ledger, rec.effectId, rec.version, "reconciler", m.clock);
      (l, m.target, if r.Ok? then Attempted(rec, r.value) else Failed(Refused(r.error)))
    case Attempted(rec, attemptId) =>
      var (d, r) := CommitPayload(m.target, rec.downstreamKey, PayloadOf(rec));
      (m.ledger, d, Answered(rec, attemptId, AnswerOf(r)))
    case Answered(rec, attemptId, answer) =>
      var (target, data) := Protocol.Outcome(Protocol.Reconciler(m.clock), rec, attemptId, answer);
      var (l, r) := Transition(m.ledger, rec.effectId, rec.version, target, data, m.clock);
      (l, m.target, Ended(r))
    case Probing(rec) => (m.ledger, m.target, Judging(rec, DurableVerdict(m.target, rec)))
    case Judging(rec, verdict) =>
      var (target, data) := Reconciler.Judgement(verdict, map[]);
      var (l, r) := Transition(m.ledger, rec.effectId, rec.version, target, data, m.clock);
      (l, m.target, Ended(r))
    case Returned(_) => (m.ledger, m.target, p)
    case Failed(_) => (m.ledger, m.target, p)
  }

  function Step(m: Matrix, turn: Turn, tenantId: string, id: string): Matrix {
    match turn
    case Wait(now) => if now > m.clock then m.(clock := now) else m
    case Go(i) =>
      if i >= |m.recoverers| then m
      else
        var (l, d, p) := Recover(m, m.recoverers[i], tenantId, id);
        m.(ledger := l, target := d, recoverers := m.recoverers[i := p])
  }

  function Recovered(m: Matrix, schedule: seq<Turn>, tenantId: string, id: string): Matrix {
    if schedule == [] then m
    else Step(Recovered(m, schedule[..|schedule| - 1], tenantId, id), schedule[|schedule| - 1], tenantId, id)
  }

  // ---------------------------------------------------------------- the invariant

  predicate Winner(p: Recoverer) {
    !p.Waiting? && !p.Fetched? && !p.Checked? && !p.Failed?
  }

  function Now(m: Matrix, base: Base): Record
    requires base.unknown.effectId in m.ledger.entries
  {
    m.ledger.entries[base.unknown.effectId].record
  }

  function Committed(base: Base): (Durable, Result<string, CanonicalError>) {
    CommitPayload(base.target, base.unknown.downstreamKey, PayloadOf(base.unknown))
  }

  /** Where a finished recovery leaves status and target, by safety class. */
  predicate Outcome(base: Base, clock: int, status: Status, target: Durable) {
    match base.unknown.contract.safety
    case Idempotent =>
      var retention, createdAt := base.unknown.contract.keyRetention, base.unknown.createdAt;
      || (status == Succeeded && target == Committed(base).0 && retention.Some? && base.clock <= createdAt + retention.value)
      || (status == ManualReview && target == base.target && (retention.Some? ==> createdAt + retention.value < clock))
    case Unsafe => status == ManualReview && target == base.target
    case _ =>
      && target == base.target
      && status == if Find(base.target.rows, base.unknown.downstreamKey).Some? then Succeeded else Prepared
  }

  predicate Probed(rec: Record) {
    rec.contract.safety in {Reconcilable, Transactional}
  }

  ghost predicate RecovererOk(m: Matrix, base: Base, p: Recoverer)
    requires base.unknown.effectId in m.ledger.entries
  {
    var now := Now(m, base);
    && (p.Fetched? || p.Checked? ==>
          SnapOk(m.ledger, p.rec) && p.rec.effectId == base.unknown.effectId && p.rec.version >= base.unknown.version)
    && (p.Checked? ==> base.clock <= p.at <= m.clock)
    && (Winner(p) || p.Failed? ==> now.version > base.unknown.version)
    && (Winner(p) && !p.Returned? ==> p.rec == now)
    && (p.Redispatching? || p.Attempted? || p.Answered? ==>
          && now.status == Dispatching && now.contract.safety == Idempotent
          && Protocol.RetentionValid(base.unknown, base.clock))
    && (p.Redispatching? || p.Attempted? ==> m.target == base.target)
    && (p.Answered? ==> m.target == Committed(base).0 && p.answer == AnswerOf(Committed(base).1))
    && (p.Probing? || p.Judging? ==> now.status == Reconciling && Probed(now) && m.target == base.target)
    && (p.Judging? ==> p.verdict == DurableVerdict(base.target, p.rec))
    && (p.Returned? ==> p.status == now.status && Outcome(base, m.clock, p.status, m.target))
  }

  /** Statuses a recovery may pass through after its first write; none of them admits another first write. */
  predicate Downstream(safety: SafetyClass, status: Status) {
    match safety
    case Idempotent => status in {Dispatching, Succeeded, ManualReview}
    case Unsafe => status == ManualReview
    case _ => status in {Reconciling, Succeeded, Prepared, ManualReview}
  }

  ghost predicate BaseOk(m: Matrix, base: Base) {
    && LedgerOk(m.ledger) && base.unknown.effectId in m.ledger.entries
    && SamePinned(base.unknown, Now(m, base)) && base.unknown.status == OutcomeUnknown
    && base.unknown.version <= Now(m, base).version
    && (Now(m, base).version == base.unknown.version ==> Now(m, base) == base.unknown && m.target == base.target)
    && (Now(m, base).version > base.unknown.version ==> Downstream(base.unknown.contract.safety, Now(m, base).status))
    && Canonicalizable(base.unknown.request.arguments)
    && base.clock <= m.clock
    && (base.unknown.contract.safety != Idempotent ==>
          |m.ledger.entries[base.unknown.effectId].attempts| == base.attempts)
  }

  ghost predicate AllOk(m: Matrix, base: Base)
    requires base.unknown.effectId in m.ledger.entries
  {
    forall i :: 0 <= i < |m.recoverers| ==> RecovererOk(m, base, m.recoverers[i])
  }

  ghost predicate OneWinner(m: Matrix, base: Base)
    requires base.unknown.effectId in m.ledger.entries
  {
    && (forall i, j :: 0 <= i < |m.recoverers| && 0 <= j < |m.recoverers| && i != j ==>
          !(Winner(m.recoverers[i]) && Winner(m.recoverers[j])))
    && (Now(m, base).version > base.unknown.version ==> exists i :: 0 <= i < |m.recoverers| && Winner(m.recoverers[i]))
  }

  ghost predicate MatrixInv(m: Matrix, base: Base) {
    BaseOk(m, base) && AllOk(m, base) && OneWinner(m, base)
  }

  // ---------------------------------------------------------------- preservation

  /** Those who have not written yet only wait while the ledger grows. */
  lemma BystandersKept(m: Matrix, m': Matrix, base: Base, i: nat)
    requires MatrixInv(m, base) && i < |m.recoverers| && |m'.recoverers| == |m.recoverers|
    requires Grows(m.ledger, m'.ledger) && base.unknown.effectId in m'.ledger.entries && m'.clock == m.clock
    requires forall j :: 0 <= j < |m.recoverers| && j != i ==> m'.recoverers[j] == m.recoverers[j] && !Winner(m.recoverers[j])
    ensures forall j :: 0 <= j < |m.recoverers| && j != i ==> RecovererOk(m', base, m'.recoverers[j])
  {
    hide LedgerOk, SnapOk, Grows, Outcome, DurableVerdict, BaseOk, OneWinner;
    BaseKnown(m, base);
    forall j | 0 <= j < |m.recoverers| && j != i
      ensures RecovererOk(m', base, m'.recoverers[j])
    {
      assert RecovererOk(m, base, m.recoverers[j]);
      VersionsGrow(m.ledger, m'.ledger, base.unknown.effectId);
      if m.recoverers[j].Fetched? || m.recoverers[j].Checked? {
        SnapMonotone(m.ledger, m'.ledger, m.recoverers[j].rec);
      }
    }
  }

  lemma VersionsGrow(l: Ledger, l': Ledger, id: string)
    requires Grows(l, l') && id in l.entries
    ensures id in l'.entries && l.entries[id].record.version <= l'.entries[id].record.version
  {
    assert EntryGrows(l.entries[id], l'.entries[id]);
  }

  /** A recoverer that moves without writing leaves everyone else as they were. */
  lemma QuietStep(m: Matrix, base: Base, i: nat, p: Recoverer)
    requires MatrixInv(m, base) && i < |m.recoverers| && RecovererOk(m, base, p)
    requires Winner(p) == Winner(m.recoverers[i])
    ensures MatrixInv(m.(recoverers := m.recoverers[i := p]), base)
  {
    hide LedgerOk, SnapOk, Outcome, DurableVerdict, Downstream;
    var m' := m.(recoverers := m.recoverers[i := p]);
    forall j | 0 <= j < |m'.recoverers|
      ensures RecovererOk(m', base, m'.recoverers[j])
    {
      if j != i {
        assert RecovererOk(m, base, m.recoverers[j]);
      }
    }
    if Now(m', base).version > base.unknown.version {
      var w :| 0 <= w < |m.recoverers| && Winner(m.recoverers[w]);
      assert Winner(m'.recoverers[w]);
    }
  }

  /** A recoverer writes: it is, or becomes, the one winner. */
  lemma WinnerStep(m: Matrix, m': Matrix, base: Base, i: nat)
    requires MatrixInv(m, base) && i < |m.recoverers|
    requires |m'.recoverers| == |m.recoverers|
    requires forall j :: 0 <= j < |m.recoverers| && j != i ==> m'.recoverers[j] == m.recoverers[j] && !Winner(m.recoverers[j])
    requires Grows(m.ledger, m'.ledger) && BaseOk(m', base) && m'.clock == m.clock
    requires Winner(m'.recoverers[i]) && RecovererOk(m', base, m'.recoverers[i])
    ensures MatrixInv(m', base)
  {
    hide LedgerOk, SnapOk, Outcome, DurableVerdict, Grows, BaseOk, RecovererOk, OneWinner;
    BaseKnown(m', base);
    BystandersKept(m, m', base, i);
    forall j | 0 <= j < |m'.recoverers|
      ensures RecovererOk(m', base, m'.recoverers[j])
    {
      assert j == i || RecovererOk(m', base, m'.recoverers[j]);
    }
    OnlyWinner(m', base, i);
  }

  lemma OnlyWinner(m: Matrix, base: Base, i: nat)
    requires base.unknown.effectId in m.ledger.entries && i < |m.recoverers| && Winner(m.recoverers[i])
    requires forall j :: 0 <= j < |m.recoverers| && j != i ==> !Winner(m.recoverers[j])
    ensures OneWinner(m, base)
  {
  }

  lemma BaseKnown(m: Matrix, base: Base)
    requires BaseOk(m, base)
    ensures base.unknown.effectId in m.ledger.entries
  {
  }

  lemma FetchStep(m: Matrix, base: Base, i: nat, tenantId: string)
    requires MatrixInv(m, base) && i < |m.recoverers| && m.recoverers[i].Waiting?
    requires tenantId == base.unknown.tenantId
    ensures MatrixInv(Step(m, Go(i), tenantId, base.unknown.effectId), base)
  {
    hide LedgerOk, SnapOk, Outcome, DurableVerdict, Downstream, AllOk, OneWinner;
    var p := Recover(m, m.recoverers[i], tenantId, base.unknown.effectId).2;
    CurrentSnap(m.ledger, base.unknown.effectId);
    QuietStep(m, base, i, p);
  }

  lemma CheckStep(m: Matrix, base: Base, i: nat, tenantId: string)
    requires MatrixInv(m, base) && i < |m.recoverers| && m.recoverers[i].Fetched?
    ensures MatrixInv(Step(m, Go(i), tenantId, base.unknown.effectId), base)
  {
    hide LedgerOk, SnapOk, Outcome, DurableVerdict, Downstream, OneWinner;
    assert RecovererOk(m, base, m.recoverers[i]);
    QuietStep(m, base, i, Checked(m.recoverers[i].rec, m.clock));
  }

  /** Only a snapshot of the unknown record itself can win the first write. */
  lemma FirstWriteNeedsUnknown(m: Matrix, base: Base, rec: Record, at: int)
    requires BaseOk(m, base) && SnapOk(m.ledger, rec) && rec.effectId == base.unknown.effectId
    requires var (target, data) := Reconciler.FirstWrite(rec, at);
             Transition(m.ledger, rec.effectId, rec.version, target, data, m.clock).1.Ok?
    ensures rec == base.unknown && Now(m, base) == base.unknown && m.target == base.target
  {
    hide LedgerOk, MoveEntry, Protocol.RetentionValid;
  }

  /** A first write that does not go through lost to one that did. */
  lemma LoserIsLate(m: Matrix, base: Base, rec: Record, at: int)
    requires BaseOk(m, base) && SnapOk(m.ledger, rec) && rec.effectId == base.unknown.effectId
    requires rec.version >= base.unknown.version
    requires var (target, data) := Reconciler.FirstWrite(rec, at);
             Transition(m.ledger, rec.effectId, rec.version, target, data, m.clock).1.Err?
    ensures Now(m, base).version > base.unknown.version
  {
    hide LedgerOk, MoveEntry, Protocol.RetentionValid;
  }

  lemma RouteLoses(m: Matrix, base: Base, i: nat, tenantId: string)
    requires MatrixInv(m, base) && i < |m.recoverers| && m.recoverers[i].Checked?
    requires var rec, at := m.recoverers[i].rec, m.recoverers[i].at;
             var (target, data) := Reconciler.FirstWrite(rec, at);
             Transition(m.ledger, rec.effectId, rec.version, target, data, m.clock).1.Err?
    ensures MatrixInv(Step(m, Go(i), tenantId, base.unknown.effectId), base)
  {
    hide LedgerOk, SnapOk, Outcome, DurableVerdict, AllOk, OneWinner, MoveEntry;
    CheckedFact(m, base, i);
    LoserIsLate(m, base, m.recoverers[i].rec, m.recoverers[i].at);
    var p := Recover(m, m.recoverers[i], tenantId, base.unknown.effectId).2;
    QuietStep(m, base, i, p);
  }

  lemma RouteWins(m: Matrix, base: Base, i: nat, tenantId: string)
    requires MatrixInv(m, base) && i < |m.recoverers| && m.recoverers[i].Checked?
    requires var rec, at := m.recoverers[i].rec, m.recoverers[i].at;
             var (target, data) := Reconciler.FirstWrite(rec, at);
             Transition(m.ledger, rec.effectId, rec.version, target, data, m.clock).1.Ok?
    ensures MatrixInv(Step(m, Go(i), tenantId, base.unknown.effectId), base)
  {
    hide LedgerOk, Grows, MoveEntry, Allowed, RecovererOk, SnapOk;
    var rec, at := m.recoverers[i].rec, m.recoverers[i].at;
    var (target, data) := Reconciler.FirstWrite(rec, at);
    CheckedFact(m, base, i);
    FirstWriteNeedsUnknown(m, base, rec, at);
    NobodyWonYet(m, base);
    TransitionKeepsLedger(m.ledger, rec.effectId, rec.version, target, data, m.clock);
    MovedRecord(m.ledger, rec.effectId, rec.version, target, data, m.clock);
    var m' := Step(m, Go(i), tenantId, base.unknown.effectId);
    assert m'.recoverers[i] == Wrote(Transition(m.ledger, rec.effectId, rec.version, target, data, m.clock).1);
    MovedAttempts(m.ledger.entries[rec.effectId], target, data, m.clock);
    FirstWriteOk(m, m', base, m'.recoverers[i], at);
    WinnerStep(m, m', base, i);
  }

  lemma CheckedFact(m: Matrix, base: Base, i: nat)
    requires MatrixInv(m, base) && i < |m.recoverers| && m.recoverers[i].Checked?
    ensures base.clock <= m.recoverers[i].at <= m.clock
    ensures SnapOk(m.ledger, m.recoverers[i].rec) && m.recoverers[i].rec.effectId == base.unknown.effectId
    ensures m.recoverers[i].rec.version >= base.unknown.version
  {
    hide LedgerOk, SnapOk;
    assert RecovererOk(m, base, m.recoverers[i]);
  }

  /** While the record is still the unknown one, nobody has written. */
  lemma NobodyWonYet(m: Matrix, base: Base)
    requires MatrixInv(m, base) && Now(m, base) == base.unknown
    ensures forall j :: 0 <= j < |m.recoverers| ==> !Winner(m.recoverers[j])
  {
    hide LedgerOk, SnapOk, Outcome, DurableVerdict;
    forall j | 0 <= j < |m.recoverers|
      ensures !Winner(m.recoverers[j])
    {
      assert RecovererOk(m, base, m.recoverers[j]);
    }
  }

  lemma MovedAttempts(e: Entry, target: Status, data: Metadata, now: int)
    ensures MoveEntry(e, target, data, now).attempts == e.attempts
  {
  }

  lemma FirstWriteOk(m: Matrix, m': Matrix, base: Base, p: Recoverer, at: int)
    requires base.clock <= at <= m.clock
    requires BaseOk(m, base) && Now(m, base) == base.unknown && m.target == base.target
    requires m'.target == m.target && m'.clock == m.clock && base.unknown.effectId in m'.ledger.entries
    requires var now := Now(m', base);
             && now.version == base.unknown.version + 1 && SamePinned(base.unknown, now)
             && now.status == Reconciler.FirstWrite(base.unknown, at).0
             && p == (match now.status
                      case Dispatching => Redispatching(now)
                      case Reconciling => Probing(now)
                      case _ => Returned(now.status))
    requires LedgerOk(m'.ledger)
    requires |m'.ledger.entries[base.unknown.effectId].attempts| == |m.ledger.entries[base.unknown.effectId].attempts|
    ensures BaseOk(m', base) && Winner(p) && RecovererOk(m', base, p)
  {
    hide LedgerOk, SnapOk;
    if Protocol.RetentionValid(base.unknown, at) {
      EarlierRetention(base.unknown, base.clock, at);
    } else if Protocol.RetentionValid(base.unknown, m.clock) {
      EarlierRetention(base.unknown, at, m.clock);
    }
  }

  /** What was retained later was retained earlier. */
  lemma EarlierRetention(rec: Record, earlier: int, later: int)
    requires earlier <= later && Protocol.RetentionValid(rec, later)
    ensures Protocol.RetentionValid(rec, earlier)
  {
  }

  lemma SoleWinner(m: Matrix, base: Base, i: nat)
    requires MatrixInv(m, base) && i < |m.recoverers| && Winner(m.recoverers[i])
    ensures forall j :: 0 <= j < |m.recoverers| && j != i ==> !Winner(m.recoverers[j])
    ensures RecovererOk(m, base, m.recoverers[i])
  {
    hide LedgerOk, SnapOk, Outcome, DurableVerdict, RecovererOk;
    assert AllOk(m, base);
  }

  lemma AttemptStep(m: Matrix, base: Base, i: nat, tenantId: string)
    requires MatrixInv(m, base) && i < |m.recoverers| && m.recoverers[i].Redispatching?
    ensures MatrixInv(Step(m, Go(i), tenantId, base.unknown.effectId), base)
  {
    hide LedgerOk, SnapOk, AllOk, OneWinner, Grows, Identifiers.AttemptId;
    SoleWinner(m, base, i);
    var rec := m.recoverers[i].rec;
    EntryFacts(m.ledger, base.unknown.effectId);
    StartAttemptKeepsLedger(m.ledger, rec.effectId, rec.version, "reconciler", m.clock);
    WinnerStep(m, Step(m, Go(i), tenantId, base.unknown.effectId), base, i);
  }

  lemma CommitStep(m: Matrix, base: Base, i: nat, tenantId: string)
    requires MatrixInv(m, base) && i < |m.recoverers| && m.recoverers[i].Attempted?
    ensures MatrixInv(Step(m, Go(i), tenantId, base.unknown.effectId), base)
  {
    hide LedgerOk, SnapOk, AllOk, OneWinner, Grows, CommitPayload, Outcome, DurableVerdict;
    SoleWinner(m, base, i);
    var rec := m.recoverers[i].rec;
    UnchangedGrows(m.ledger);
    SamePayload(base.unknown, rec);
    WinnerStep(m, Step(m, Go(i), tenantId, base.unknown.effectId), base, i);
  }

  lemma SamePayload(r: Record, r': Record)
    requires SamePinned(r, r')
    ensures PayloadOf(r) == PayloadOf(r') && r.downstreamKey == r'.downstreamKey
  {
  }

  /** A winner's last write always goes through. */
  lemma LastWrite(m: Matrix, base: Base, rec: Record, target: Status, data: Metadata)
    requires BaseOk(m, base) && rec == Now(m, base) && Allowed(rec.status, target)
    requires rec.version > base.unknown.version && Downstream(base.unknown.contract.safety, target)
    ensures var (l, r) := Transition(m.ledger, rec.effectId, rec.version, target, data, m.clock);
            && r.Ok? && r.value.status == target && r.value.version > base.unknown.version
            && base.unknown.effectId in l.entries
            && Grows(m.ledger, l) && BaseOk(m.(ledger := l), base)
            && r.value == Now(m.(ledger := l), base)
  {
    hide Grows, SnapOk, Downstream, IdentityOk, OrderOk, LogOk, AttemptsOk;
    EntryFacts(m.ledger, base.unknown.effectId);
    TransitionKeepsLedger(m.ledger, rec.effectId, rec.version, target, data, m.clock);
  }

  lemma ReportStep(m: Matrix, base: Base, i: nat, tenantId: string)
    requires MatrixInv(m, base) && i < |m.recoverers| && m.recoverers[i].Answered?
    ensures MatrixInv(Step(m, Go(i), tenantId, base.unknown.effectId), base)
  {
    hide LedgerOk, SnapOk, AllOk, OneWinner, Grows, Protocol.CommittedData, Protocol.FailureData, CommitPayload, PayloadOf,
         Transition, BaseOk;
    SoleWinner(m, base, i);
    PinnedFacts(m, base);
    var p := m.recoverers[i];
    PayloadCommits(base);
    var (target, data) := Protocol.Outcome(Protocol.Reconciler(m.clock), p.rec, p.attemptId, p.answer);
    LastWrite(m, base, p.rec, target, data);
    var m' := Step(m, Go(i), tenantId, base.unknown.effectId);
    BaseOnLedger(m, m', base);
    WinnerStep(m, m', base, i);
  }

  lemma PinnedFacts(m: Matrix, base: Base)
    requires BaseOk(m, base)
    ensures base.unknown.effectId in m.ledger.entries && SamePinned(base.unknown, Now(m, base))
    ensures Canonicalizable(base.unknown.request.arguments)
    ensures Now(m, base).effectId == base.unknown.effectId
  {
    hide LedgerOk;
  }

  lemma PayloadCommits(base: Base)
    requires Canonicalizable(base.unknown.request.arguments)
    ensures Committed(base).1.Ok?
  {
    hide PayloadOf;
    PayloadCanonical(base.unknown);
  }

  /** Which recoverers there are is no part of the base. */
  lemma BaseOnLedger(m: Matrix, m': Matrix, base: Base)
    requires BaseOk(m.(ledger := m'.ledger), base) && m'.clock == m.clock && m'.target == m.target
    ensures BaseOk(m', base)
  {
    hide LedgerOk;
  }

  lemma ProbeStep(m: Matrix, base: Base, i: nat, tenantId: string)
    requires MatrixInv(m, base) && i < |m.recoverers| && m.recoverers[i].Probing?
    ensures MatrixInv(Step(m, Go(i), tenantId, base.unknown.effectId), base)
  {
    hide LedgerOk, SnapOk, AllOk, OneWinner, DurableVerdict;
    SoleWinner(m, base, i);
    QuietStep(m, base, i, Judging(m.recoverers[i].rec, DurableVerdict(m.target, m.recoverers[i].rec)));
  }

  lemma JudgeStep(m: Matrix, base: Base, i: nat, tenantId: string)
    requires MatrixInv(m, base) && i < |m.recoverers| && m.recoverers[i].Judging?
    ensures MatrixInv(Step(m, Go(i), tenantId, base.unknown.effectId), base)
  {
    hide LedgerOk, SnapOk, AllOk, OneWinner, Grows, Protocol.ProbedData, Transition, BaseOk;
    SoleWinner(m, base, i);
    PinnedFacts(m, base);
    var p := m.recoverers[i];
    var (target, data) := Reconciler.Judgement(p.verdict, map[]);
    LastWrite(m, base, p.rec, target, data);
    var m' := Step(m, Go(i), tenantId, base.unknown.effectId);
    BaseOnLedger(m, m', base);
    WinnerStep(m, m', base, i);
  }

  lemma WaitStep(m: Matrix, base: Base, now: int, tenantId: string)
    requires MatrixInv(m, base)
    ensures MatrixInv(Step(m, Wait(now), tenantId, base.unknown.effectId), base)
  {
    hide LedgerOk, SnapOk, DurableVerdict, CommitPayload;
    var m' := Step(m, Wait(now), tenantId, base.unknown.effectId);
    forall j | 0 <= j < |m'.recoverers|
      ensures RecovererOk(m', base, m'.recoverers[j])
    {
      assert RecovererOk(m, base, m.recoverers[j]);
    }
  }

  lemma StepKeeps(m: Matrix, base: Base, turn: Turn, tenantId: string)
    requires MatrixInv(m, base) && tenantId == base.unknown.tenantId
    ensures MatrixInv(Step(m, turn, tenantId, base.unknown.effectId), base)
  {
    hide MatrixInv, Reconciler.FirstWrite, Transition;
    match turn
    case Wait(now) => WaitStep(m, base, now, tenantId);
    case Go(i) =>
      if i < |m.recoverers| {
        match m.recoverers[i]
        case Waiting => FetchStep(m, base, i, tenantId);
        case Fetched(_) => CheckStep(m, base, i, tenantId);
        case Checked(rec, at) =>
          var (target, data) := Reconciler.FirstWrite(rec, at);
          if Transition(m.ledger, rec.effectId, rec.version, target, data, m.clock).1.Ok? {
            RouteWins(m, base, i, tenantId);
          } else {
            RouteLoses(m, base, i, tenantId);
          }
        case Redispatching(_) => AttemptStep(m, base, i, tenantId);
        case Attempted(_, _) => CommitStep(m, base, i, tenantId);
        case Answered(_, _, _) => ReportStep(m, base, i, tenantId);
        case Probing(_) => ProbeStep(m, base, i, tenantId);
        case Judging(_, _) => JudgeStep(m, base, i, tenantId);
        case _ =>
          assert m.recoverers[i := m.recoverers[i]] == m.recoverers;
      }
  }

  lemma {:induction false} RecoveryKeeps(m: Matrix, base: Base, schedule: seq<Turn>, tenantId: string)
    requires MatrixInv(m, base) && tenantId == base.unknown.tenantId
    ensures MatrixInv(Recovered(m, schedule, tenantId, base.unknown.effectId), base)
    ensures |Recovered(m, schedule, tenantId, base.unknown.effectId).recoverers| == |m.recoverers|
  {
    hide MatrixInv, Recover;
    if schedule == [] {
    } else {
      RecoveryKeeps(m, base, schedule[..|schedule| - 1], tenantId);
      StepKeeps(Recovered(m, schedule[..|schedule| - 1], tenantId, base.unknown.effectId), base, schedule[|schedule| - 1], tenantId);
    }
  }

  // ---------------------------------------------------------------- the matrix

  predicate Finished(m: Matrix) {
    forall i :: 0 <= i < |m.recoverers| ==> m.recoverers[i].Returned? || m.recoverers[i].Failed?
  }

  /** The effect stands marked unknown and n recoverers are about to start. */
  function Begin(l: Ledger, target: Durable, clock: int, n: nat): Matrix {
    Matrix(clock, l, target, seq(n, _ => Waiting))
  }

  lemma BeginOk(l: Ledger, target: Durable, clock: int, n: nat, id: string)
    requires LedgerOk(l) && id in l.entries && l.entries[id].record.status == OutcomeUnknown
    ensures MatrixInv(Begin(l, target, clock, n), Base(l.entries[id].record, |l.entries[id].attempts|, target, clock))
  {
    hide LedgerOk;
    StoredIsCanonical(l, id);
    EntryFacts(l, id);
  }

  /** The number of recoverers that returned normally. */
  function ReturnedCount(recoverers: seq<Recoverer>): nat {
    if recoverers == [] then 0
    else ReturnedCount(recoverers[..|recoverers| - 1]) + if recoverers[|recoverers| - 1].Returned? then 1 else 0
  }

  lemma {:induction false} OneReturned(recoverers: seq<Recoverer>, w: nat)
    requires w < |recoverers| && recoverers[w].Returned?
    requires forall i :: 0 <= i < |recoverers| && i != w ==> !recoverers[i].Returned?
    ensures ReturnedCount(recoverers) == 1
  {
    var last := |recoverers| - 1;
    if w == last {
      NoneReturned(recoverers[..last]);
    } else {
      OneReturned(recoverers[..last], w);
    }
  }

  lemma {:induction false} NoneReturned(recoverers: seq<Recoverer>)
    requires forall i :: 0 <= i < |recoverers| ==> !recoverers[i].Returned?
    ensures ReturnedCount(recoverers) == 0
  {
    if recoverers == [] {
    } else {
      NoneReturned(recoverers[..|recoverers| - 1]);
    }
  }

  /** A finished matrix has exactly one winner, and the winner returned. */
  lemma FinishedHasWinner(m: Matrix, base: Base) returns (w: nat)
    requires MatrixInv(m, base) && Finished(m) && |m.recoverers| > 0
    requires Now(m, base).version > base.unknown.version
    ensures w < |m.recoverers| && m.recoverers[w].Returned?
    ensures forall i :: 0 <= i < |m.recoverers| && i != w ==> !m.recoverers[i].Returned?
    ensures RecovererOk(m, base, m.recoverers[w])
  {
    hide LedgerOk, SnapOk, Outcome, DurableVerdict, RecovererOk;
    w :| 0 <= w < |m.recoverers| && Winner(m.recoverers[w]);
    SoleWinner(m, base, w);
  }

  /** Nobody finishes before some first write has gone through. */
  lemma FinishedMeansWritten(m: Matrix, base: Base)
    requires MatrixInv(m, base) && Finished(m) && |m.recoverers| > 0
    ensures Now(m, base).version > base.unknown.version
  {
    hide LedgerOk, SnapOk, Outcome, DurableVerdict;
    assert RecovererOk(m, base, m.recoverers[0]);
  }

  /**
   * Crash anywhere after DISPATCHING was written, mark unknown, recover: for any number of concurrent
   * recoverers and any interleaving in which they all finish, exactly one returns normally, and status
   * and target end where the safety class says. An idempotent effect is committed again and ends SUCCEEDED if
   * recovery ends by creation plus key retention, and is left to a human, uncalled, if it starts after that. A
   * reconcilable effect ends SUCCEEDED exactly when the commit had happened, and recovery never calls the target.
   */
  lemma CrashRecovery(l: Ledger, target: Durable, clock: int, n: nat, id: string, schedule: seq<Turn>)
    requires LedgerOk(l) && id in l.entries && l.entries[id].record.status == OutcomeUnknown
    requires n > 0
    requires Finished(Recovered(Begin(l, target, clock, n), schedule, l.entries[id].record.tenantId, id))
    ensures var unknown := l.entries[id].record;
            var m := Recovered(Begin(l, target, clock, n), schedule, unknown.tenantId, id);
            var base := Base(unknown, |l.entries[id].attempts|, target, clock);
            && id in m.ledger.entries
            && ReturnedCount(m.recoverers) == 1
            && Outcome(base, m.clock, m.ledger.entries[id].record.status, m.target)
            && m.ledger.entries[id].record.version > unknown.version
            && (var status, safety, retention := m.ledger.entries[id].record.status, unknown.contract.safety, unknown.contract.keyRetention;
                && (safety == Idempotent && retention.Some? && m.clock <= unknown.createdAt + retention.value ==>
                      status == Succeeded && m.target == CommitPayload(target, unknown.downstreamKey, PayloadOf(unknown)).0)
                && (safety == Idempotent && (retention.Some? ==> unknown.createdAt + retention.value < clock) ==>
                      status == ManualReview && m.target == target)
                && (safety == Idempotent ==>
                      || (status == Succeeded && m.target == CommitPayload(target, unknown.downstreamKey, PayloadOf(unknown)).0)
                      || (status == ManualReview && m.target == target))
                && (safety in {Reconcilable, Transactional} ==>
                      && m.target == target
                      && status == if Find(target.rows, unknown.downstreamKey).Some? then Succeeded else Prepared)
                && (safety == Unsafe ==> status == ManualReview && m.target == target))
            && (unknown.contract.safety != Idempotent ==> |m.ledger.entries[id].attempts| == |l.entries[id].attempts|)
  {
    hide Recovered, Begin, LedgerOk, OneWinner, SnapOk, Outcome, AllOk, CommitPayload, PayloadOf, Find;
    EntryFacts(l, id);
    var base := Base(l.entries[id].record, |l.entries[id].attempts|, target, clock);
    BeginOk(l, target, clock, n, id);
    RecoveryKeeps(Begin(l, target, clock, n), base, schedule, base.unknown.tenantId);
    var m := Recovered(Begin(l, target, clock, n), schedule, base.unknown.tenantId, id);
    BeginSize(l, target, clock, n);
    FinishedMeansWritten(m, base);
    var w := FinishedHasWinner(m, base);
    OneReturned(m.recoverers, w);
    OutcomeInFull(base, m.clock, m.ledger.entries[id].record.status, m.target);
  }

  lemma OutcomeInFull(base: Base, clock: int, status: Status, target: Durable)
    requires Outcome(base, clock, status, target)
    ensures var safety, retention, createdAt := base.unknown.contract.safety, base.unknown.contract.keyRetention, base.unknown.createdAt;
            && (safety == Idempotent && retention.Some? && clock <= createdAt + retention.value ==>
                  status == Succeeded && target == Committed(base).0)
            && (safety == Idempotent && (retention.Some? ==> createdAt + retention.value < base.clock) ==>
                  status == ManualReview && target == base.target)
            && (safety == Idempotent ==>
                  || (status == Succeeded && target == Committed(base).0)
                  || (status == ManualReview && target == base.target))
            && (safety in {Reconcilable, Transactional} ==>
                  target == base.target && status == if Find(base.target.rows, base.unknown.downstreamKey).Some? then Succeeded else Prepared)
            && (safety == Unsafe ==> status == ManualReview && target == base.target)
  {
    hide CommitPayload, PayloadOf, Find;
  }

  lemma BeginSize(l: Ledger, target: Durable, clock: int, n: nat)
    ensures |Begin(l, target, clock, n).recoverers| == n
  {
  }

  /** A zombie that still believes in the unknown version is fenced out after any recovery. */
  lemma ZombieFenced(l: Ledger, target: Durable, clock: int, n: nat, id: string, schedule: seq<Turn>, data: Metadata)
    requires LedgerOk(l) && id in l.entries && l.entries[id].record.status == OutcomeUnknown
    requires n > 0
    requires Finished(Recovered(Begin(l, target, clock, n), schedule, l.entries[id].record.tenantId, id))
    ensures var m := Recovered(Begin(l, target, clock, n), schedule, l.entries[id].record.tenantId, id);
            Transition(m.ledger, id, l.entries[id].record.version, Dispatching, data, m.clock) == (m.ledger, Err(VersionConflict(id)))
  {
    hide Recovered, Begin, LedgerOk;
    CrashRecovery(l, target, clock, n, id, schedule);
  }

  // ---------------------------------------------------------------- every recovery finishes

  /** How many turns a recoverer still needs at most. */
  function Remaining(p: Recoverer): nat {
    match p
    case Waiting => 6
    case Fetched(_) => 5
    case Checked(_, _) => 4
    case Redispatching(_) => 3
    case Attempted(_, _) => 2
    case Answered(_, _, _) => 1
    case Probing(_) => 2
    case Judging(_, _) => 1
    case Returned(_) => 0
    case Failed(_) => 0
  }

  function Turns(schedule: seq<Turn>, i: nat): nat {
    if schedule == [] then 0
    else Turns(schedule[..|schedule| - 1], i) + if schedule[|schedule| - 1] == Go(i) then 1 else 0
  }

  lemma TurnMakesProgress(m: Matrix, turn: Turn, tenantId: string, id: string, i: nat)
    requires i < |m.recoverers|
    ensures var m' := Step(m, turn, tenantId, id);
            && |m'.recoverers| == |m.recoverers|
            && Remaining(m'.recoverers[i]) <= Remaining(m.recoverers[i])
            && (turn == Go(i) && Remaining(m.recoverers[i]) > 0 ==> Remaining(m'.recoverers[i]) < Remaining(m.recoverers[i]))
  {
    hide Get, Reconciler.FirstWrite, Reconciler.Judgement, Transition, StartAttempt, CommitPayload, Protocol.Outcome, DurableVerdict, PayloadOf;
  }

  lemma {:induction false} TurnsCount(m: Matrix, schedule: seq<Turn>, tenantId: string, id: string, i: nat)
    requires i < |m.recoverers|
    ensures var m' := Recovered(m, schedule, tenantId, id);
            && |m'.recoverers| == |m.recoverers|
            && Remaining(m'.recoverers[i]) <= if Turns(schedule, i) >= Remaining(m.recoverers[i]) then 0
                                              else Remaining(m.recoverers[i]) - Turns(schedule, i)
  {
    hide Step, Remaining;
    if schedule == [] {
    } else {
      TurnsCount(m, schedule[..|schedule| - 1], tenantId, id, i);
      TurnMakesProgress(Recovered(m, schedule[..|schedule| - 1], tenantId, id), schedule[|schedule| - 1], tenantId, id, i);
    }
  }

  /** Six turns each are enough, in whatever order they come. */
  lemma SixTurnsFinish(l: Ledger, target: Durable, clock: int, n: nat, schedule: seq<Turn>, tenantId: string, id: string)
    requires forall i :: 0 <= i < n ==> Turns(schedule, i) >= 6
    ensures Finished(Recovered(Begin(l, target, clock, n), schedule, tenantId, id))
  {
    var m := Begin(l, target, clock, n);
    forall i | 0 <= i < n
      ensures |Recovered(m, schedule, tenantId, id).recoverers| == n
      ensures Remaining(Recovered(m, schedule, tenantId, id).recoverers[i]) == 0
    {
      TurnsCount(m, schedule, tenantId, id, i);
    }
    RecoveredSize(m, schedule, tenantId, id);
  }

  lemma {:induction false} RecoveredSize(m: Matrix, schedule: seq<Turn>, tenantId: string, id: string)
    ensures |Recovered(m, schedule, tenantId, id).recoverers| == |m.recoverers|
  {
    hide Recover;
    if schedule == [] {
    } else {
      RecoveredSize(m, schedule[..|schedule| - 1], tenantId, id);
    }
  }
}
