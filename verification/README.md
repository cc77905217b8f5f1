# Verified model of effect-broker

effect-broker records an external effect (a charge, say) before it is made, hands it to a target under a
key derived from the tenant and the operation, and repairs what crashes and lost responses leave behind.
It promises to bound how often the target acts, by the safety class each contract declares. This project
models the broker in Dafny and proves those bounds.

## What is modelled

- **Ledger** (`Models`, `StateMachine`, `Ledger`, `LedgerProofs`): records, leases, attempts, event logs and
  the status graph, with each store operation as a function on the whole ledger. `StoreContracts` says what each
  operation promises in fields and instants, once for all stores.
- **Concurrent protocol** (`Protocol`): one ledger, one target, any number of workers, reconcilers,
  submitters, cancellers and operators. Each store method and each adapter call is one atomic step and
  everything between is interleaved. Every actor has a program counter and the snapshots it holds. `Crash`
  drops an actor's continuation, `MarkUnknown` declares an effect's outcome unknown, `Tick` lets time pass,
  `Forget` makes the target forget a key. A run is any list of labels. `ProtocolInvariant`, `ProtocolSteps`,
  `ProtocolCalls`, `ProtocolTarget`, `ProtocolRuns`, `ProtocolOnce`, `ProtocolTheorems`, `ProtocolOutcomes`,
  `ProtocolExact`, `ProtocolTenants`, `ProtocolLeases` and `RetentionExact` hold its invariants and theorems.
- **Stores in place** (`MemoryStore`, `TableStore`): the dictionaries of the in-memory store and the tables of
  the SQLite and Postgres stores as classes, proved against the same ledger functions (`StoresAgree`), and the
  unlocked read of the Postgres transition (`PostgresTransition`).
- **Worker, reconciler, broker** (`Worker`, `Draining`, `Reconciler`, `Engine`): the imperative code over a
  store, an adapter and a clock, proved to be runs of the protocol.
- **Targets** (`Target`, `SimulatedTarget`, `DurableTarget`) and the **crash matrix** (`CrashMatrix`,
  `CrashWorker`).
- **Canonical identity** (`Json`, `Canonical`, `CanonicalProofs`, `CanonicalReader`, `Identity`,
  `Identifiers`, `Reservations`): validation, sorted-key JSON with the string escapes of section 7 of RFC 8259,
  a reader that inverts it, request hashes and downstream keys. SHA-256 and HMAC are ideal: a digest stands
  for the text, a key for the tenant key and the message it was made from.
- **Unknown-effect gauges** (`Observability`, `RecordingRaces`).

Times and durations count microseconds.

## Hypotheses

Theorems about runs name the hypotheses they need; a hypothesis is a predicate on a state and the label taken
there, and `Throughout` asks it of every step. Nothing else is assumed of the environment.

- `OwnerGone`: `MarkUnknown` is applied only when no actor is still about to call the target for the effect's
  current version: the owner has died or its call has returned. `ProtocolExact.GivingUpSafeIff` shows that
  reconcilable effects need exactly this.
- `ProvenNonCommit`: an adapter raises `AdapterError` only when no charge exists under the key
  (src/effect_broker/errors.py:70-75).
- `NeverForgets`: the target remembers every key. `ForgetsLate` is the weaker promise that it remembers a key
  for the declared retention after each charge made under it.
- `PromptRedispatch`: a reconciler's call lands at the instant its retention check was made. `InTime` is weaker:
  it lands by creation plus key retention, however long after the check. `RetentionExact.LatestSafeInstant` shows
  that no later instant is safe: the code checks before its first write and not again before the call, so a
  reconciler delayed in between past that instant can charge twice (src/effect_broker/reconcile.py:55-78).
- `ValidContracts`: submitted contracts passed `validate_contract`.

Probes are authoritative throughout: a verdict is no proof, or the truth about the key. Both shipped adapters
are shown to give such verdicts.

## Model

| member | source | states |
|---|---|---|
| ProtocolTheorems.AtMostOneCharge | src/effect_broker/worker.py:47-98 | Under OwnerGone and NeverForgets, in every reachable state no effect of any safety class has more than one charge, whatever actors, crashes, lost responses and rejections interleave. |
| ProtocolTheorems.OnceByFencing | src/effect_broker/reconcile.py:44-154 | Under OwnerGone alone, reconcilable, transactional and unsafe effects have at most one charge, even at a target that forgets. |
| ProtocolTheorems.OnceByDeduplication | src/effect_broker/adapters/simulated.py:55-80 | Under NeverForgets alone, without OwnerGone, idempotent and transactional effects have at most one charge, and all confirmations given at any two moments of the run, by whatever actors, are the same answer. |
| ProtocolTheorems.NeverDrifts | src/effect_broker/adapters/simulated.py:61-67 | In no run does the target's payload-drift rejection fire: the commit an actor is about to make is always accepted. |
| ProtocolTheorems.OnceUnderRetention | src/effect_broker/reconcile.py:55-78 | Under OwnerGone, ProvenNonCommit, ForgetsLate and PromptRedispatch, every effect has at most one charge: the reconciler's check against creation is conservative for a target that counts retention from the charge. |
| ProtocolTheorems.OnceInTime | src/effect_broker/reconcile.py:55-78 | The same with InTime instead of PromptRedispatch: a redispatch may land after its check, as long as it lands by creation plus key retention. |
| RetentionExact.LatestSafeInstant | src/effect_broker/reconcile.py:175-179 | Let redispatches land up to some slack after creation plus key retention: no run under the other hypotheses charges twice if and only if the slack is zero or negative. The bound is exact to the microsecond. |
| RetentionExact.OneInstantLate | src/effect_broker/reconcile.py:55-78 | For every valid idempotent contract there is a run whose check is made at the last valid instant, whose target forgets no key early, and whose redispatch lands one instant after creation plus retention: it ends with two charges. |
| ProtocolTenants.TenantScope | src/effect_broker/engine.py:66-70 | In every run, an actor that read an effect by id for a tenant changes effects of that tenant only, and passes only such effects to the target, until it reads for another tenant or claims as a worker. |
| ProtocolLeases.ClaimsApart | src/effect_broker/store/memory.py:165-177 | In every run, two claims of one effect with no write to it in between are at least the first lease apart, whatever else happens; from the end of the lease on any idle actor's claim takes it. |
| StoreContracts.TenantsDoNotInterfere | src/effect_broker/store/memory.py:259-264 | Two ledgers that hold the same effects of a tenant give that tenant the same record, the same receipt and the same reply to a submission, and still hold the same effects of it afterwards. |
| StoreContracts.LeaseExcludes | src/effect_broker/store/memory.py:165-177 | An effect of one batch, as long as nobody writes it, is in no other batch before now plus lease_for, and from then on (in Postgres strictly after it) is in every batch that is not full. |
| StoreContracts.ClaimHandsOut | src/effect_broker/store/memory.py:156-188 | A batch holds at most limit effects, all PREPARED or RETRYABLE with no running lease, in insertion order; each is leased to the worker until now plus lease_for at its next version and logged so; a free effect that is passed over comes after the whole batch, which is then full; nothing else changes. |
| StoreContracts.TransitionWrites | src/effect_broker/store/memory.py:225-257 | The fenced write in fields: which refusal, and otherwise the next version, the new status, the instant, no lease, and one event with the edge and its facts; the statuses a target may be written from are listed target by target. |
| StoreContracts.ReserveReserves | src/effect_broker/store/memory.py:104-143 | A reservation is new exactly when the tenant has no effect with the operation key, and then holds what the caller asked for, PREPARED at version 0; a replay shows the tenant's effect; nothing else changes. |
| StoreContracts.ReceiptShows | src/effect_broker/store/memory.py:284-308 | A receipt is shown if and only if the effect belongs to the caller's tenant and has SUCCEEDED, with the facts and the instant of that success. |
| ProtocolOnce.NextKeepsOnce | src/effect_broker/worker.py:47-98 | Every step keeps the key invariant: an actor may call the target only while it holds the current version, and effects waiting for dispatch, just dispatched by a worker, rejected or proven absent are uncharged. |
| ProtocolOnce.OthersCannotWrite | src/effect_broker/statemachine.py:23-49 | While a call is pending at the current version, no other actor's write goes through on that effect. |
| ProtocolExact.GivingUpSafeIff | examples/crash_matrix/runner.py:130-144 | In any state reached under OwnerGone, declaring a reconcilable effect unknown keeps it at one charge in every later run that respects OwnerGone if and only if no call for its current version is pending. |
| ProtocolExact.GivingUpTooEarly | src/effect_broker/adapters/simulated.py:127-159 | If a call is pending, there is a continuation with truthful probes only that ends with two charges. |
| ProtocolRuns.UnsafeCalledAtMostOnce | src/effect_broker/contracts.py:43-50 | Under ValidContracts alone, with live zombies and early MarkUnknown, an unsafe effect has at most one attempt row, is passed to the target at most once and charged at most once. |
| ProtocolRuns.WriteAhead | src/effect_broker/worker.py:48-63 | In every reachable state charges never exceed calls, calls never exceed attempt rows, attempt rows never exceed entries into DISPATCHING; attempt versions increase strictly, and every call has an attempt row of its own version. |
| ProtocolRuns.RunSound | src/effect_broker/store/memory.py:191-257 | Every run keeps the base, write-ahead and target invariants, with no hypothesis on the environment. |
| ProtocolInvariant.RunKeeps | src/effect_broker/store/memory.py:325-338 | In every run snapshots are exact while their version is current, and each version has at most one owner. |
| ProtocolSteps.Classify | src/effect_broker/reconcile.py:44-154 | Every step of a reachable system is no change or one of nine exactly described ones; a write happens only over the current record, along an allowed edge, with the status and facts its actor may write. |
| ProtocolRuns.CurrentAttemptIsLast | src/effect_broker/worker.py:126-137 | An actor about to call or report at the current version holds the id of the last attempt row, so the retry limit is compared with the true number of attempts. |
| ProtocolRuns.EventLogIsState | src/effect_broker/store/memory.py:340-359 | In every reachable state replaying an effect's log gives its status and version, sequences are 1, 2, 3 without gap, the version counts claims and transitions, each of which made a version of its own, and the edges form a path of the status graph. |
| LedgerProofs.EachVersionOnce | src/effect_broker/store/memory.py:225-257 | In a log that replays, versions never decrease, and every claim or transition makes a strictly larger one than all events before it. |
| LedgerProofs.VersionCountsAdvances | src/effect_broker/store/memory.py:168-177 | The version is the number of claims and transitions in the log. |
| LedgerProofs.EdgesFormPath | src/effect_broker/statemachine.py:23-49 | Each recorded edge starts where the log before it ended and is allowed; claims happen only in PREPARED or RETRYABLE. |
| LedgerProofs.TransitionKeepsLedger | src/effect_broker/store/memory.py:225-257 | A transition, accepted or refused, keeps the ledger invariant (log replay, attempt rows, leases, hashes, keys, identity index, order) and the ledger only grows. What it writes is stated by MemoryStore.InMemoryStore.Transition. |
| LedgerProofs.ReserveKeepsLedger | src/effect_broker/store/memory.py:88-143 | A reservation keeps the ledger invariant and changes no existing effect. |
| LedgerProofs.ClaimAllKeepsLedger | src/effect_broker/store/memory.py:145-189 | Claiming any set of due effects keeps the ledger invariant; pinned fields stay and logs extend. |
| LedgerProofs.StartAttemptKeepsLedger | src/effect_broker/store/memory.py:191-223 | Starting an attempt keeps the ledger invariant whatever the effect's status. |
| LedgerProofs.FencedForever | src/effect_broker/errors.py:57-63 | A write at a version already passed is refused as a version conflict in every later ledger and changes nothing. |
| LedgerProofs.StoredIsCanonical | src/effect_broker/canonical.py:73-94 | Every stored effect has arguments that canonicalisation accepts. |
| LedgerProofs.DistinctEffectsDistinctKeys | src/effect_broker/canonical.py:97-109 | Two effects of one ledger with the same downstream key are the same effect. |
| ProtocolOutcomes.TruthfulSuccess | src/effect_broker/reconcile.py:103-133 | Under OwnerGone and NeverForgets a SUCCEEDED effect has a receipt; the receipt was made by an operator exactly when it names no external id, and otherwise names the id of the effect's one and only charge. |
| ProtocolOutcomes.SuccessNamesCharge | src/effect_broker/store/memory.py:284-308 | With no hypothesis, a SUCCEEDED effect has a receipt under its own key that was made by an operator or names a charge of the effect. |
| ProtocolOutcomes.TerminalForever | src/effect_broker/statemachine.py:38-54 | Once terminal, an effect's record, lease, attempts and events never change again in any run. |
| ProtocolOutcomes.CancelledNeverCalled | src/effect_broker/engine.py:103-135 | With no hypothesis, an effect cancelled before any attempt stays cancelled, uncalled and uncharged in every continuation. |
| ProtocolOutcomes.CancelledNeverCharged | src/effect_broker/engine.py:103-135 | Under OwnerGone and ProvenNonCommit, an effect that was cancelled at any time of a run has no charge at its end. |
| MemoryStore.InMemoryStore.Reserve | src/effect_broker/store/memory.py:88-143 | The dictionaries go to the ledger Reserve describes, with its reply: new effect, replay, payload conflict or uncanonical payload; the new entry and the replay are stated field by field. |
| MemoryStore.InMemoryStore.ClaimDue | src/effect_broker/store/memory.py:145-189 | Exactly the first due effects in insertion order, up to the limit, are claimed and returned: each was waiting with its lease absent or over, and is now leased to the worker until now plus lease_for at its next version; every other effect is as it was. |
| MemoryStore.FirstDueExact | src/effect_broker/store/memory.py:156-167 | An effect is in the batch if and only if it is due and fewer than limit due effects precede it. |
| MemoryStore.InMemoryStore.StartAttempt | src/effect_broker/store/memory.py:191-223 | Unknown effect and stale version are refused without change; otherwise one row with the next ordinal, the worker, the version and the instant, and one event, are added, the formatted id is returned, and status, version and lease stay. |
| MemoryStore.InMemoryStore.Transition | src/effect_broker/store/memory.py:225-257 | Unknown effect, stale version and disallowed edge are refused without change; otherwise the record has the target status, the next version and the instant, the lease is gone, the edge and its facts are logged, and the new record is returned. |
| MemoryStore.InMemoryStore.RecordForUpdate | src/effect_broker/store/memory.py:325-338 | Returns the record if and only if it exists at the expected version, and the right refusal otherwise. |
| MemoryStore.InMemoryStore.Receipt | src/effect_broker/store/memory.py:284-308 | The backward scan gives a receipt if and only if the effect is of the caller's tenant and SUCCEEDED, with the facts of the move to SUCCEEDED. |
| MemoryStore.InMemoryStore.Get | src/effect_broker/store/memory.py:259-264 | A record is returned if and only if the stored record's tenant is the caller's, and it is the stored record. |
| StoresAgree.Compare | src/effect_broker/store/sqlite.py:97-394 | Run side by side on any operation sequence, the in-memory store and a table store give the same replies and represent the same ledger, given that creations come at strictly later instants and, for Postgres, no claim comes at the instant a lease ends. |
| StoresAgree.BatchesDifferIff | src/effect_broker/store/postgres.py:366-367 | The unlimited batches of SQLite and Postgres differ if and only if some listed effect is due in one and not in the other. |
| StoresAgree.BoundaryDiffersIff | src/effect_broker/store/postgres.py:366-367 | That is so for an effect exactly when it waits for dispatch and its lease ends at this very instant. |
| TableStore.PlacedLastIff | src/effect_broker/store/sqlite.py:183-191 | Ordering by created_at and effect_id lists a new row last exactly when every other row is earlier. |
| TableStore.PlacedInOrder | src/effect_broker/store/postgres.py:371 | A new row keeps the table in that order wherever it belongs. |
| TableStore.TableStore.Transition | src/effect_broker/store/sqlite.py:280-329 | Clearing the lease whatever the target, the table transition makes the same fenced write, in fields, as the in-memory one, with the same refusals. |
| TableStore.LeaseAlwaysCleared | src/effect_broker/store/memory.py:243-244 | An allowed move never leaves a lease, so conditional and unconditional clearing coincide. |
| TableStore.MaxIsCount | src/effect_broker/store/postgres.py:684-712 | On a log with sequences 1, 2, 3 the largest sequence number is the number of rows, so MAX + 1 and COUNT + 1 coincide. |
| TableStore.TableStore.AppendEvent | src/effect_broker/store/sqlite.py:545-578 | Both dialects append the event with the next sequence number. |
| TableStore.NoReceiptBefore | src/effect_broker/store/postgres.py:714-733 | An effect not yet SUCCEEDED has no receipt, so the unique receipt row can always be inserted. |
| TableStore.TableStore.Receipt | src/effect_broker/store/postgres.py:559-594 | The receipt row of Postgres and the log scan of SQLite both give a receipt if and only if the effect is of the caller's tenant and SUCCEEDED, with the facts of the success. |
| TableStore.TableStore.ClaimDue | src/effect_broker/store/sqlite.py:168-228 | Claims the first due rows in table order and leases each to the worker until now plus lease_for, all else unchanged; an earlier lease counts as over from its end on in SQLite, strictly after it in Postgres. |
| TableStore.TableStore.StartAttempt | src/effect_broker/store/postgres.py:410-460 | The counted ordinal is the next one of that effect; refusals as in the in-memory store. |
| TableStore.TableStore.Reserve | src/effect_broker/store/sqlite.py:97-166 | Insert, or on a conflict the row that is there: the in-memory reservation, listed at the row's place in the order. |
| TableStore.TableStore.Get | src/effect_broker/store/sqlite.py:331-336 | A row is returned if and only if its tenant is the caller's. |
| PostgresTransition.UnlockedIsAtomic | src/effect_broker/store/postgres.py:462-519 | Any interleaving of unlocked reads, updates conditional on the version, lost connections and other operations leaves the ledger and gives the replies of a sequence of atomic operations, each placed at one of its own statements. |
| PostgresTransition.OverwriteIsMove | src/effect_broker/store/postgres.py:641-660 | When the conditional update goes through, the record is still the one that was read, so the stale status check still holds and the write is the atomic transition. |
| Worker.DispatchOne | src/effect_broker/worker.py:47-98 | With nobody else writing and the clock moving on between writes, one effect goes through DISPATCHING, attempt row, call and outcome as four timed steps of the protocol. The whole trace is stated in fields: three events with their instants, versions and facts, the attempt row, no lease, the target as the one delivery leaves it, and SUCCEEDED, OUTCOME_UNKNOWN, RETRYABLE or FAILED_FINAL by the answer and by the number of attempts against the retry limit. |
| Worker.RecordAnswer | src/effect_broker/worker.py:102-137 | The outcome written for an answer is the protocol's: SUCCEEDED for a confirmation only, OUTCOME_UNKNOWN for silence or no confirmation, and for a rejection RETRYABLE while the attempt ordinal is below the retry limit, else FAILED_FINAL. |
| Worker.Adapter.Dispatch | src/effect_broker/adapters/base.py:28-42 | A refused, lost or unconfirmed call leaves the target alone; a call that lands commits, deduplicating for idempotent and transactional effects only, and is confirmed only if its answer arrives. |
| Worker.Adapter.Probe | src/effect_broker/adapters/base.py:28-42 | The verdict is the scripted one whenever that is true of the target, and no proof otherwise. |
| Draining.DispatchOnce | src/effect_broker/worker.py:29-99 | One batch is exactly a claim at the caller's instant followed by four timed protocol steps per claimed effect; it makes one call per claimed effect and leaves no running lease behind. |
| Draining.Drain | src/effect_broker/cli.py:288-310 | The worker loop, alone, with an adapter that always gives proof, limit at least 1, no lease running at first and any nondecreasing clock, ends with every waiting effect SUCCEEDED or FAILED_FINAL and all others untouched. Each waiting effect gets at least one and at most max(1, retry_limit minus attempts) new attempts and fails only at its limit; the target calls are at most the sum of these. |
| Draining.ProvenDispatchSpends | src/effect_broker/worker.py:120-137 | A dispatch with a proven answer spends at least one of the remaining tries. |
| Reconciler.ReconcileOnce | src/effect_broker/reconcile.py:44-154 | From a snapshot that may be stale, at a moving clock: the call returns normally if and only if the snapshot is the stored record and its status admits the first write, else nothing changes. Unsafe: MANUAL_REVIEW, adapter untouched. Idempotent, checked by creation plus key retention: exactly one more dispatch, the target as that delivery leaves it, and SUCCEEDED naming the confirmed id, RETRYABLE for a rejection, OUTCOME_UNKNOWN otherwise; checked later: MANUAL_REVIEW, adapter untouched. Others: one probe and no dispatch; SUCCEEDED naming x for a true proof of commit x, PREPARED for a true proof of absence, else MANUAL_REVIEW, with the evidence. All events, instants and facts are stated, and the run is one of the protocol. |
| Reconciler.FirstWriteDecides | src/effect_broker/statemachine.py:66-84 | The first write goes through exactly when the snapshot is current and its status admits the route. |
| Engine.EffectBroker.Submit | src/effect_broker/engine.py:51-64 | A tool without contract is refused; otherwise submitting is the protocol's submission under the registry's contract, with the store's reply: a new effect as asked for, or the tenant's effect of that operation; an error changes nothing. |
| Engine.EffectBroker.Cancel | src/effect_broker/engine.py:103-135 | An effect that is missing or another tenant's is unknown; then a stale expected version, then a status other than PREPARED or RETRYABLE is refused as such, all without change; otherwise the effect is CANCELLED at the next version with actor and reason logged. The steps are the protocol's canceller. |
| Engine.EffectBroker.Resolve | src/effect_broker/engine.py:137-159 | An effect that is missing or another tenant's is unknown; an effect not in manual review, or a resolution other than SUCCEEDED, FAILED_FINAL and COMPENSATED, is refused, all without change; otherwise the resolution is written with the evidence and the operator. The steps are the protocol's operator. |
| Engine.RegistryFromMapping | src/effect_broker/contracts.py:54-104 | A configuration is accepted if and only if every tool has a safety class and a retry limit of at least 0, idempotent ones a positive key retention, reconcilable ones a settlement bound of at least 0 and unsafe ones no retries; the first bad tool is the error; every contract of the registry carries its tool's name and exactly the configured version, retry limit, durations and class, v1 and 0 by default. |
| Target.CommitCharges | src/effect_broker/adapters/simulated.py:55-80 | A commit adds nothing under its key or exactly one fresh charge with the caller's key and hash, never for a deduplicating call that finds one, and answers with a charge under the key. |
| Target.CommitKeepsTarget | src/effect_broker/adapters/simulated.py:55-80 | A commit keeps ids fresh and the key index right, keeps every charge and touches no other key. |
| Target.SimulatedProbeTruthful | src/effect_broker/adapters/simulated.py:127-153 | The simulated probe's verdict is no proof or the truth about the key. |
| Target.SettledProbeExact | src/effect_broker/adapters/simulated.py:127-159 | The simulated probe proves absence if and only if the effect is reconcilable, has no charge and creation plus settlement bound has come; it proves a commit, by a charge under the key, if and only if there is one, the class is not unsafe and commits do not hide or that instant has come. |
| SimulatedTarget.SimulatedTarget.Commit | src/effect_broker/adapters/simulated.py:55-80 | The target updated in place does what the commit on values says and never forgets: every call is counted; a rejection changes no charge and means a charge with another hash; a new charge is fresh, carries the effect's key and hash, the instant and the amount of the request, and is never made for a deduplicating caller of a charged key. |
| SimulatedTarget.SimulatedTarget.ChargesForKey | src/effect_broker/adapters/simulated.py:88-92 | The listed charges are exactly all charges ever made under the key. |
| SimulatedTarget.SimulatedAdapter.Dispatch | src/effect_broker/adapters/simulated.py:106-125 | The commit happens first; the answer is a rejection on drift, silence if the next response is to be lost, a confirmation naming a charge under the key otherwise, and the switch is cleared only when a response was lost. Charged idempotent and transactional keys are not charged again. |
| SimulatedTarget.SimulatedAdapter.Probe | src/effect_broker/adapters/simulated.py:127-153 | The probe in place gives the verdict on values, which is truthful; absence and commit are proven exactly at the instants and charges SettledProbeExact states. |
| DurableTarget.CommitKeepsDurable | examples/crash_matrix/target.py:59-99 | Neither uniqueness constraint of the table can be violated, and a committed key is found with the id returned. |
| DurableTarget.CommitTwice | examples/crash_matrix/target.py:59-99 | A repeated commit under one key returns the same id, changes no committed effect and is still logged as a call. |
| DurableTarget.OneRowPerCalledKey | examples/crash_matrix/target.py:101-123 | A key has exactly one committed effect if it was ever called, and none otherwise. |
| DurableTarget.DurableTarget.Commit | examples/crash_matrix/target.py:59-99 | Exactly the payloads with canonical text are committed; each such call is logged, adds one row under a key without one and none otherwise, and returns the id of the key's row; a refused payload writes nothing. |
| DurableTarget.DurableTarget.CountRows | examples/crash_matrix/target.py:101-111 | The counted rows of a key are one if the key was ever called, else none. |
| DurableTarget.DurableTarget.CommitCallCount | examples/crash_matrix/target.py:113-123 | The count is the number of logged calls under the key. |
| DurableTarget.DurableTarget.Probe | examples/crash_matrix/target.py:197-212 | A commit is proven, by the id of the key's row, exactly for keys with a row unless the effect is unsafe; absence exactly for reconcilable and transactional effects whose key has no row, that is, was never called. |
| CrashMatrix.CrashRecovery | examples/crash_matrix/runner.py:224-242 | For any number of concurrent recoverers and any interleaving in which they all finish, with time passing, exactly one returns normally; idempotent effects end SUCCEEDED with one more commit if recovery ends by creation plus key retention, in manual review with no call if it starts after that, and one of the two in between; reconcilable and transactional ones end SUCCEEDED if the commit had happened, else PREPARED, with no call; unsafe ones in manual review with no call. |
| CrashMatrix.SixTurnsFinish | examples/crash_matrix/runner.py:171-198 | Any schedule that gives each recoverer six turns lets all of them finish. |
| CrashMatrix.ZombieFenced | examples/crash_matrix/runner.py:245-259 | After any recovery a write at the unknown version is a version conflict and changes nothing. |
| CrashWorker.RunOnce | examples/crash_matrix/worker.py:25-96 | A worker that dies after claim, after DISPATCHING, before or after the target's commit, or nowhere, leaves status, attempts, lease and target exactly as that point says. |
| CrashWorker.MarkableIff | examples/crash_matrix/runner.py:130-144 | A dead worker's effect can be marked unknown if and only if it died between DISPATCHING and the receipt. |
| CrashWorker.MatrixPasses | examples/crash_matrix/runner.py:300-325 | Death after the commit and before the receipt, mark unknown, then any number of recoverers in any interleaving: one charge in every case; an idempotent effect is called twice and SUCCEEDED if recovery ends by creation plus key retention, called once and in manual review if it starts after; reconcilable and transactional ones are called once and SUCCEEDED, unsafe ones called once and in manual review. The verdict is favourable for each of the three shipped classes. |
| Identity.CanonicalRoundTrip | src/effect_broker/canonical.py:26-70 | canonical_json succeeds exactly on the values validation accepts, and reading the text gives the value's JSON tree back. |
| Identity.SameTextIffSameTree | src/effect_broker/canonical.py:56-70 | Two validated values have the same canonical text if and only if they are the same JSON tree, objects being maps and floats opaque tokens. |
| Identity.FieldOrderIrrelevant | src/effect_broker/canonical.py:56-70 | Reordering the fields of an object does not change its text. |
| CanonicalProofs.TwoMembers | src/effect_broker/canonical.py:56-70 | Whatever their order, two members are written in ascending order of their names, names quoted, with a comma and a colon and no blanks between. |
| CanonicalProofs.PlainText | src/effect_broker/canonical.py:56-70 | Text without quotes, backslashes and control characters is written as it is between quotes, non-ASCII characters included. |
| TextOrder.FirstDifferenceDecides | src/effect_broker/canonical.py:56-70 | Names are ordered by the first character in which they differ, a proper prefix first. |
| Identity.HashExists | src/effect_broker/canonical.py:73-94 | A request has a hash exactly when its arguments are canonicalizable. |
| Identity.SameHashIffSamePayload | src/effect_broker/canonical.py:73-94 | With an ideal digest, equal request hashes mean equal tool, argument tree, contract name and contract version, and conversely. |
| Identity.DistinctOperationsDistinctKeys | src/effect_broker/store/base.py:29-46 | With an ideal MAC and per-tenant keys, equal downstream keys mean equal tenant and operation key, whatever characters they hold. |
| Identity.SharedKeyCollidesIff | src/effect_broker/canonical.py:97-109 | Under one key shared by two tenants the NUL separator is not enough: they have colliding operations if and only if one tenant id followed by NUL begins the other. |
| Identity.NulFreeTenantsSeparate | src/effect_broker/canonical.py:97-109 | Tenant ids without NUL are separated even under a shared key. |
| Identifiers.AttemptOrdinalRoundTrip | src/effect_broker/worker.py:140-144 | The ordinal read back from a formatted attempt id is the ordinal written, for every effect id, dashes included, and every ordinal. |
| Identifiers.FormattedIds | src/effect_broker/store/memory.py:114-115 | Effect and charge ids are eff_ or charge_ and their number in decimal, six digits wide below a million, read back as that number. |
| Reservations.OneEffectPerOperation | src/effect_broker/store/memory.py:104-116 | After an accepted submission every later one for the same tenant and operation key is answered with that effect if and only if its hash is the same, and never changes the store. |
| Reservations.SameReplyIffSamePayload | src/effect_broker/store/memory.py:104-116 | It is answered so exactly when tool, argument tree, contract name and contract version are the same. |
| Reservations.DistinctOperationsApart | src/effect_broker/store/memory.py:118-143 | Accepted submissions of different operations have different effects and different downstream keys. |
| Observability.IndexIsRecount | src/effect_broker/observability.py:271-302 | If every write into or out of OUTCOME_UNKNOWN is recorded as it is made, then after any run the indexed effects of each contract and safety class are exactly the ledger's effects of unknown outcome with that pair. |
| Observability.SilentMirrorsIff | src/effect_broker/observability.py:106-118 | An unrecorded write keeps the index true exactly when it neither enters nor leaves OUTCOME_UNKNOWN: an operator's resolution does, MarkUnknown does not. |
| Observability.UnknownGauges.TrackUnknown | src/effect_broker/observability.py:271-302 | After an update every count gauge shows the number of indexed effects with its labels, 0 when the last one leaves, and every age gauge the age of the oldest of them. |
| Observability.UnknownGauges.OldestAge | src/effect_broker/observability.py:290-302 | The age is that of the oldest listed effect, and 0 when there is none or all lie in the future. |
| Observability.TransitionAndRecord | src/effect_broker/worker.py:147-164 | Transition and recording together keep every count gauge equal to the number of the ledger's effects of unknown outcome with its contract name and safety class, set every age gauge to the time since the creation of the oldest of them, and count exactly the version conflicts as fenced stale writes. |
| RecordingRaces.QuiescentIndexIff | src/effect_broker/worker.py:147-164 | With recording a step of its own that others may overtake, once everything written has been recorded the index lists exactly the unknown effects if and only if, for each effect, its last recorded change and its last change made agree on whether it is unknown. |
| RecordingRaces.VersionOrderSuffices | src/effect_broker/observability.py:106-118 | Recording each effect's changes in version order is enough for that. |

## Left out

- HTTP API, command line, MCP server, authentication, configuration files and YAML: only the broker calls they make are modelled.
- SQL text, connection pools, migrations and row or JSON column conversion: tables are maps and sequences. Postgres truncates sub-second durations in its columns; the model keeps them.
- SHA-256, HMAC and base64url internals: ideal functions. Collisions are outside the model.
- Effect ids by uuid4 and instants are parameters, new ids being fresh; clock readings are any nondecreasing sequence.
- Python's limits on integer digits and recursion depth, lone surrogates in text, and custom mapping or sequence types that validation admits but the JSON encoder rejects.
- Identifiers.AttemptOrdinalRoundTrip: other spellings that int() accepts (signs, underscores, surrounding blanks, non-ASCII digits) read as the fallback 1 in the model; no id the stores format has one.
- An adapter call is one atomic step: a request still travelling when its caller dies lands at the step or never. A late arrival is an actor that pauses before its call.
- Probes that raise: the effect stays in RECONCILING with no exit, and nothing is promised about it. An adapter factory that raises is a crash of the actor.
- No bound on attempts is claimed for reconciler-driven runs: the reconciler moves to RETRYABLE without looking at the retry limit (src/effect_broker/reconcile.py:79-90). A worker makes no retention check before it dispatches.
- Worker.DispatchOne: proved for a store nobody else writes meanwhile. The caught version conflict and the second write it leads to are in the protocol's report step, not in this method.
- Draining.DispatchOnce: same restriction; a conflict that drops the rest of a batch is in the protocol's begin and attempt steps.
- Reconciler.ReconcileOnce: the snapshot may be stale, but nobody writes between the first write and the last.
- Evidence a durable probe returns is empty in the crash matrix; the simulated and the generic probe carry any evidence.
- Observability.TransitionAndRecord: transition and recording are one step here; the race between them is the subject of RecordingRaces.
- Transition metadata that the table stores refuse to serialise, and the external_id column of the receipt table.
- Row locks: reservations, claims, attempts and event numbering in Postgres and SQLite are atomic transactions; SKIP LOCKED claims, which may pass over rows another claim holds, are not modelled.
- Listing and paging of effects, events for inspection, histograms, spans, latency and Prometheus rendering: easy members or none.
- Crash-matrix subprocesses: replaced by crash points and interleaved steps.
