# Verified models of the financial core

Dafny models of a payment reconciliation back end: the ingestion of source rows, the
reconciliation of payments, settlements and bank transactions, the governed execution of
corrective actions, sessions and administrators, the unified transaction listing, the close of a
financial period, and money itself. `dafny verify dfyconfig.toml` checks everything.

Code that computes values is a function here; code that changes tables is a class whose methods
are proved equal to a step of a specification; what the system promises is then proved of the
specification over every input, every sequence of requests or every interleaving of steps.

| file | about |
|---|---|
| `Validation.dfy`, `Fingerprints.dfy` | row checks and normal forms; row and batch fingerprints |
| `Ingestion.dfy`, `IngestionRuns.dfy`, `IngestedFacts.dfy` | one batch; any number of submissions and retries; what the stored facts say |
| `IngestionService.dfy` | the ingestion service over its tables |
| `Reconciliation.dfy`, `ReconciliationEngine.dfy` | what runs insert, over any schedule; the engine and its unflushed rows |
| `ActionExecution.dfy`, `ExecutionOverlap.dfy` | the execution protocol, step by step, any number of callers and deciders; when it calls again |
| `Governance.dfy`, `GovernanceOverlap.dfy` | discrepancy, evaluation, request, approval, execution; decisions that overlap |
| `Decisions.dfy`, `ExecutionDecisions.dfy` | what overlapping commits leave a request with; executions of requests that are not approved |
| `Sessions.dfy`, `SessionService.dfy` | tokens, revocations, MFA; the routes and services |
| `Exchanges.dfy`, `PasswordChanges.dfy` | challenge exchanges, MFA disablings and password changes that overlap |
| `AdminUsers.dfy` | the last active administrator |
| `Workspace.dfy`, `Pagination.dfy` | filters, counts, flags; pages over an order with ties |
| `PeriodClose.dfy` | close controls and the close itself |
| `Money.dfy`, `Decimals.dfy` | rounding and arithmetic |
| `Sorting.dfy`, `Wrappers.dfy` | shared helpers |

## How it is modelled

- Tables are sequences or maps; unique keys, flush, savepoint, commit and rollback are explicit.
  Rows are never deleted where the code never deletes them, so a row's id is often its position.
- The hash is any collision-free function of canonical JSON. Fresh ids, unexpected failures,
  adapter answers, one-time code checks and clock readings come from outside, unrestricted.
- Amounts are exact decimals, or integers in units of 10^-4 where the columns are Numeric(18,4).
- Instants are integers in microseconds; a source row's datetime keeps its offset as well. Stored
  dates and clock readings lie on one axis. A database that drops the offset, or refuses to compare
  aware columns with the naive clock of the matchers, is not modelled.

## What the code does not keep

Each of these is a lemma with its exact condition.

- '100.0' and '100.00' have different fingerprints, although the docstring says otherwise, and so
  have two offsets of one instant.
- A saved run lacks the records of the rows behind one that raised, although the docstring says
  the audit trail cannot be lost; submitting them again is answered as a duplicate.
- A run whose valid rows all failed cannot be retried, and any run only once.
- All batches without a valid row are one batch per source type.
- Two overlapping executions under different keys both reach the adapter; so does a second key
  after an adapter that answered PENDING. A key that another request used returns that request's
  execution.
- Two overlapping decisions on a request both succeed, and its audit rows then replay to nothing.
  So a request can be REJECTED after its action was executed, and executed after it was REJECTED.
- A fault after the adapter's answer was committed turns a stored SUCCEEDED into UNKNOWN if the
  handler, whose rollback expires the row it goes on to read, recovers.
- A recovery code backs two sessions when two requests of one user read it at a time; a
  challenge backs two only if an exchange outlives the purge of the first one's revocation.
- A password change that was overtaken by another writes a version that was given before: sessions
  signed in between survive it, and sessions ended earlier can come back, although the lock is there
  to keep changes from racing the version.
- No payment status equals the one that a period close asks for. The close reads one control after
  the other and does not look again, so it can close a period that was ready at no moment.
- A denied policy does not resolve a discrepancy for the close, although the comment there says so:
  only a SUCCEEDED execution does.
- Pages can lose a record when two that share id and creation time straddle a page boundary.
  Ids are drawn at random and no key spans two tables, so nothing but chance prevents it.
- Rounding to a negative number of places rounds to whole units.

## Model

| member | source | states |
|---|---|---|
| `ActionExecution.AdapterAtMostOncePerKey` | services/action_execution/service.py:29-106 | In every world that any number of overlapping callers, crashes and deciders can reach, the adapter log names no idempotency key twice, no execution has two attempts, and each call had its attempt already committed and its own caller had found the request APPROVED |
| `ExecutionDecisions.ExecutedUnapprovedIff` | services/action_request/service.py:100-120 | Over every run: a request that was executed is not APPROVED now if and only if some commit found it APPROVED and wrote REJECTED or CANCELLED over it, and none has approved it since |
| `ActionExecution.StepKeepsInv` | services/action_execution/service.py:29-148 | Every protocol step, of any caller and in any order, keeps the whole invariant: unique keys, one owner per execution, one attempt each, sound call log |
| `ActionExecution.OnlyTheOwnerInvokes` | services/action_execution/service.py:70-84 | Once a key is stored, every later adapter call under it comes from the one caller that stored it; losers of the insert race and later callers never invoke |
| `ActionExecution.OneOwnerPerKey` | database/models/action_execution.py:22 | The UNIQUE key leaves at most one caller that owns a key and has yet to invoke |
| `ActionExecution.ShutStaysShut` | services/action_execution/service.py:48-55 | A request with a SUCCEEDED, UNKNOWN or abandoned RUNNING execution stays shut in every later world; only callers already past the guard can still call for it |
| `ExecutionOverlap.FurtherCallIff` | services/action_execution/service.py:29-84 | From every reached world: a further adapter call for a request is possible in some continuation if and only if a caller is past the guard and not stuck, or every execution of the request is FAILED or PENDING or about to be recorded so and either a caller with a free key waits at the guard or the request is or can become APPROVED, a rejected one by a decider that read it pending; otherwise no continuation ever calls again |
| `ExecutionOverlap.TwoKeysBothInvoke` | services/action_execution/service.py:43-71 | The guard is no lock: from every world in which nothing blocks an approved request, two new callers under two keys can both pass it and both reach the adapter |
| `ActionExecution.SerialCallIsARun` | services/action_execution/service.py:25-148 | An undisturbed call, whatever dies or raises in it, is one of the protocol's runs and leaves exactly the closed form used by the service and by the governance model |
| `ActionExecution.ActionExecutionService.ExecuteActionRequest` | services/action_execution/service.py:25-148 | Tables, adapter log and answer of one call: replayed key, blocked request, refused request, lost insert, crash at each commit, adapter that raises |
| `ExecutionOverlap.AnswerSurvivesIff` | services/action_execution/service.py:121-148 | In every continuation a committed answer keeps its status if and only if it was UNKNOWN anyway or its caller's own handler does not both meet a later fault and recover from it; a handler that raises after its rollback leaves the answer |
| `ActionExecution.ReachesTheAdapterIff` | services/action_execution/service.py:25-106 | An undisturbed call reaches the adapter if and only if the request is approved, no execution of its own blocks it or carries its key, and no other request's execution carries the key; a call past the guard is swallowed without a trace exactly in the last case |
| `Governance.GovernanceSafety` | services/policy/engine.py:56-82 | After any sequence of whole service calls each execution belongs to an APPROVED request, each request to its own APPROVAL_REQUIRED evaluation with the same investigation, discrepancy and action, and playing the audit rows gives the request's status |
| `GovernanceOverlap.ExecutedIsApprovedIff` | services/action_request/service.py:100-120 | Once decisions overlap, an execution belongs to an APPROVED request if and only if no commit found that request APPROVED and wrote REJECTED or CANCELLED over it for good |
| `Governance.OneRequestPerDiscrepancyAndAction` | services/action_request/service.py:45-59 | However often it is asked for, a discrepancy has at most one request per action |
| `Governance.DecidedOnce` | services/action_request/state_machine.py:7-30 | No request is decided twice: at most one audit row each |
| `GovernanceOverlap.ReplaysIff` | services/action_request/service.py:92-120 | Over every interleaving of reads and commits of any number of deciders: the audit rows of a request play to its status if and only if every commit for it found the status its caller had read, and else to nothing |
| `GovernanceOverlap.CommitFindsItsReadIff` | services/action_request/service.py:100-120 | Every commit succeeds; it finds the status its caller had read if and only if the request was not decided before |
| `GovernanceOverlap.UndisturbedDecision` | services/action_request/service.py:92-120 | A read and its commit with nothing in between are the service's transition |
| `Governance.AllButTheNewestFailed` | services/action_execution/service.py:48-71 | With adapters that never answer PENDING, all adapter calls made for one request but the last ended FAILED, over any sequence of calls |
| `Governance.SecondKeyRunsIff` | services/action_execution/service.py:53-55 | The exact condition: after a first call a second key reaches the adapter if and only if the first answer was FAILED or PENDING |
| `Governance.ShortcutFindsTheChain` | services/period.py:241-251 | Looking executions up by the request's discrepancy column finds the same ones as the join over investigation, evaluation and request (services/exceptions.py) |
| `Governance.GovernanceService.EvaluatePolicy` | services/policy/engine.py:11-82 | Raises for an unknown investigation, otherwise answers with the one evaluation of this pair, inserting it only if there is none |
| `Governance.GovernanceService.CreateFromEvaluation` | services/action_request/service.py:31-79 | Raises unless the evaluation asks for approval; asking again gives the same request |
| `Governance.GovernanceService.TransitionState` | services/action_request/service.py:92-120 | Succeeds exactly from PENDING_APPROVAL and writes status and audit row together |
| `Validation.FirstFailureDecides` | services/ingestion/validation.py:251-336 | Each record type accepts exactly the rows that pass all its checks, and reports the code of the first check that fails |
| `Validation.SpelledRowNormalizes` | services/ingestion/validation.py:348-394 | Round trip: every well-formed normal row is the result of normalising the source row that spells it out |
| `Validation.NormalizedIsWellFormed` | services/ingestion/validation.py:71-185 | Normalisation yields nothing but well-formed rows: vocabularies, lengths, non-empty texts, at most four decimals |
| `Fingerprints.CanonicalFingerprint` | services/ingestion/validation.py:210-231 | The loop that fills the canonical dictionary computes the digest of the specified form, whatever the key order |
| `Fingerprints.SameFingerprintIff` | services/ingestion/validation.py:210-231 | With a collision-free hash two rows share a fingerprint if and only if they normalise to the same row, digit for digit and offset for offset |
| `Fingerprints.SpellingIsIgnoredIff` | services/ingestion/validation.py:213-222 | The documented promise that equal rows share a fingerprint however they are spelled holds for exactly the rows with one spelling: no amount and no datetime to write otherwise |
| `Fingerprints.RespellingChangesFingerprint` | services/ingestion/validation.py:213-222 | Any change of trailing zeros or of offsets keeps the meaning of a row, and keeps its fingerprint only if it changes nothing |
| `Fingerprints.SameBatchIff` | services/ingestion/batch.py:74-82 | Two submissions have one batch fingerprint if and only if source type and multiset of normalised valid rows agree, in any order and whatever the invalid rows |
| `Ingestion.RowKeepsOneToOne` | services/ingestion/batch.py:139-207 | One row, whatever its outcome, keeps accepted records, ledger rows and facts paired and every identity unique |
| `Ingestion.RowsAppend` | services/ingestion/batch.py:138-209 | A batch only appends: one record per row in order up to a crash, and the crashed row's record stays FAILED |
| `IngestionRuns.ExactlyOnce` | services/ingestion/batch.py:212-317 | After any sequence of submissions and retries with rollbacks, crashes and repeated rows: the k-th ACCEPTED record, ledger row and fact belong together, no identity or fingerprint occurs twice, and each stored run's status and counters agree with its records |
| `IngestionRuns.NothingStoredChanges` | services/ingestion/batch.py:482-525 | No fact, ledger row, row record or run ever changes or moves again, whatever happens later |
| `IngestionRuns.DuplicateIff` | services/ingestion/batch.py:226-254 | A submission is a duplicate, and changes nothing, if and only if a stored run has its source type and its normalised valid rows; otherwise one run is added |
| `IngestionRuns.InvalidBatchesCollide` | services/ingestion/batch.py:226-254 | All batches without a valid row are one batch per source type: the second leaves no trace |
| `IngestionRuns.RowsBehindACrash` | services/ingestion/batch.py:261-300 | Rows behind an unexpected failure have no record, cannot be retried, and submitting the same rows again is swallowed as a duplicate |
| `IngestionRuns.MissingRecordsIff` | services/ingestion/batch.py:132-137 | The documented promise that a mid-batch failure loses no audit row, exactly: a saved run lacks a record if and only if a row other than its last raised, one that is valid, of a new identity, and met an unexpected failure or an ambiguous reference; the records then end with that row |
| `IngestionRuns.RetriedRowsAreValid` | services/ingestion/batch.py:500-516 | A retry works on FAILED records alone, and each of them is a valid row |
| `IngestionRuns.NoIdentityTwice` | services/ingestion/batch.py:160-168 | No event adds a fact whose identity the ledger holds; new facts are exactly the new ledger rows |
| `IngestionRuns.RetryOpensARunIff` | services/ingestion/batch.py:482-525 | A retry opens a run exactly when the run has FAILED rows and no stored run has their batch; otherwise nothing changes |
| `IngestionRuns.RetryOfAFullFailureIsSwallowed` | services/ingestion/batch.py:516-525 | When every valid row of a run failed, its retry does nothing: the retried rows are the run's own batch |
| `IngestionRuns.RetryWorksOnce` | services/ingestion/batch.py:516-525 | After one saved retry, and whatever happens in between, every further retry of that run changes nothing |
| `IngestionRuns.OldRunsKeepTheirRecords` | services/ingestion/batch.py:138-153 | No later event adds a record to an existing run |
| `IngestedFacts.FinancialSoundness` | services/ingestion/materialize.py:132-290 | Over every sequence of events: each refund is within a payment of its currency and merchant, a fee has at most one parent, references resolve, and each stored net is the one the bank matcher recomputes |
| `IngestedFacts.EveryFactCarriesItsRow` | services/ingestion/materialize.py:98-314 | End to end, the k-th ingested fact carries the amounts, codes and dates of the raw row in the k-th ledger entry and points at the very entities that row names |
| `IngestionService.Service.InsertPair` | services/ingestion/batch.py:170-184 | Fact and ledger row appear together or, on any unique-key conflict, not at all |
| `IngestionService.Service.TryRow` | services/ingestion/batch.py:160-207 | Savepoint, materialisation, refusal, conflict and recheck give the status and tables of the specification |
| `IngestionService.Service.ProcessOne` | services/ingestion/batch.py:139-207 | A record stored as FAILED first and updated in place ends as the specification's one appended record |
| `IngestionService.Service.ProcessAll` | services/ingestion/batch.py:138-209 | The loop over the rows is the specified fold, cut short by the first unexpected failure |
| `IngestionService.Service.CreateRun` | services/ingestion/batch.py:212-317 | Duplicate answer, counters, statuses, FAILED runs and full rollback as specified, with counters taken from the outcomes in memory |
| `IngestionService.Service.RetryRun` | services/ingestion/batch.py:482-525 | Unknown run, nothing to retry, or the FAILED payloads in row order as a new batch |
| `Reconciliation.KeysAndCountersOverRuns` | services/reconciliation/engine.py:29-43 | Over any runs on any facts: one relationship per (source, target, type), one discrepancy per (source, rule), and the reported counts of all runs add up to the table sizes |
| `Reconciliation.SecondRunChangesNothing` | services/reconciliation/engine.py:29-52 | A second run at the same instant changes no table, reports 0 created and 0 found, and processes the same records |
| `Reconciliation.EveryRelationshipIsBacked` | services/reconciliation/matchers/payment_settlement.py:52-110 | Over accumulating facts each RECONCILED relationship has a witness that passes every check, each DISCREPANCY one a witness and a stored discrepancy of the same source under the first check it fails |
| `Reconciliation.WindowIsLinked` | services/reconciliation/matchers/settlement_bank.py:76-152 | After a run every settlement item and bank transaction of the window has its relationship |
| `Reconciliation.ReconcilesWithBankIff` | services/reconciliation/matchers/settlement_bank.py:92-125 | Amount (a settled amount of zero counts as missing), currency, and less than four full days late: exactly then a bank transaction reconciles |
| `Reconciliation.EveryDifferenceIsSound` | services/reconciliation/matchers/payment_settlement.py:165-168 | Every stored discrepancy with both amounts has difference = /expected - actual/ > 0 |
| `Reconciliation.PaymentFlaggedIff` | services/reconciliation/matchers/payment_settlement.py:42-49 | A payment that never gets an item, stored before the first run or at any time later, is flagged exactly once if some run that has it in its window reads the clock after p + 3 d, and never otherwise |
| `Reconciliation.SettlementFlaggedIff` | services/reconciliation/matchers/settlement_bank.py:59-74 | The same for a settlement without bank transactions |
| `Reconciliation.ElevenDayScheduleFlagsPayment` | services/reconciliation/matchers/payment_settlement.py:26-49 | Any schedule that starts by p + 3 d, goes on past it and pauses at most 11 days flags the payment exactly once, provided it is stored in the runs after p + 3 d |
| `Reconciliation.ElevenDayScheduleFlagsSettlement` | services/reconciliation/matchers/settlement_bank.py:26-74 | The same schedule flags an unbanked settlement exactly once |
| `Reconciliation.ElevenDaysIsExact` | services/reconciliation/matchers/payment_settlement.py:26-45 | Eleven days is the exact bound: all schedules with pauses up to a gap flag the payment if and only if the gap is at most 11 days |
| `Reconciliation.ElevenDaysIsExactForSettlements` | services/reconciliation/matchers/settlement_bank.py:26-74 | The same exact bound for settlements without bank transactions |
| `ReconciliationEngine.Engine.UpsertRelationship` | services/reconciliation/matchers/payment_settlement.py:114-144 | Inserts exactly when no row has the key, then flushes everything pending |
| `ReconciliationEngine.Engine.UpsertDiscrepancy` | services/reconciliation/matchers/payment_settlement.py:146-173 | The same for discrepancies, although the lookup cannot see pending rows |
| `ReconciliationEngine.Engine.CreateMissingSettlement` | services/reconciliation/matchers/payment_settlement.py:175-198 | Adds its row without a flush and still never a second one for the payment |
| `ReconciliationEngine.Engine.MatchPayments` | services/reconciliation/matchers/payment_settlement.py:22-112 | The nested loops insert and count exactly the specified list, with no lookup ever missing an unflushed row of its own key |
| `ReconciliationEngine.Engine.MatchSettlements` | services/reconciliation/matchers/settlement_bank.py:22-154 | The same for settlements, fee check first |
| `ReconciliationEngine.Engine.RunReconciliation` | services/reconciliation/engine.py:13-52 | One engine run is one step of the specification, its totals the sums of the two matchers |
| `Sessions.DeadForever` | apps/api/auth.py:47-100 | With requests one after another, a token that is expired, revoked past its expiry or issued under an older credential version is refused in every later state, purges, reactivations and password changes included |
| `PasswordChanges.DeadUnlessStale` | services/auth/password_management.py:57-72 | However exchanges, disablings, password changes and all other requests overlap: as long as no change commits over a version newer than the one it read, credential versions only grow and a dead token stays dead |
| `Sessions.LogoutIsFinal` | apps/api/routes/auth.py:346-371 | After a logout the token is never accepted again |
| `Sessions.NewPasswordEndsEverySession` | services/auth/password_management.py:111-145 | With requests one after another, after a password change or reset no session and no challenge issued before is ever accepted again |
| `PasswordChanges.ChangeEndsEverySessionIff` | services/auth/password_management.py:111-145 | Over every run without an earlier stale commit: a committed change ends every token of its user, even one handed out right before, if and only if the version it has read is still the stored one |
| `PasswordChanges.NewPasswordEndsForGood` | services/auth/password_management.py:111-145 | However requests overlap, a new password ends every session and challenge of its user for good as long as no change is stale, this one included |
| `PasswordChanges.SessionAfterChangeIff` | services/auth/password_management.py:130-137 | A session that is neither expired nor revoked is accepted after a change if and only if it carries the version the change read plus one: a good one survives when exactly one other change came first, an ended one comes back |
| `PasswordChanges.OverlapKeepsASession` | services/auth/password_management.py:57-72 | The promise that changes cannot race the version bump fails: two changes that authenticate first, and a session signed in between their commits outlives the second |
| `PasswordChanges.UndisturbedChange` | services/auth/password_management.py:84-145 | Authentication and commit with nothing in between are the one request of the sequential model |
| `Sessions.SessionAcceptedIff` | apps/api/auth.py:47-100 | With requests one after another nothing else ends a session: it is accepted later exactly when unexpired, its user active, and since then neither logged out nor given a new password (with a forced change pending, at password endpoints only) |
| `Sessions.FactorsAreSingleUse` | apps/api/routes/mfa.py:71-84 | Over any run of requests each MFA challenge and each recovery code leads to at most one session |
| `Sessions.RecoveryCodesAreUnambiguous` | database/models/mfa.py:37 | Over any run of requests the unique index keeps the lookup of a recovery code from ever meeting two rows |
| `Sessions.ExchangeKillsChallenge` | apps/api/routes/mfa.py:182-211 | The revocation of an exchanged challenge outlasts the challenge |
| `Exchanges.SessionsPerChallenge` | apps/api/routes/mfa.py:165-228 | Over every interleaving of exchanges, disablings, password changes, requests and purges: the sessions of a challenge and its exchanges lost after their commit are as many as its revocations, stored (one at most) or purged; so one session at most until a revocation of it is purged |
| `Exchanges.FurtherSessionIff` | services/auth/token_revocation.py:9-25 | In every reached state: a challenge or recovery code that has led to a session leads to another in some continuation if and only if a disabling past its checks still holds it, or an exchange past its checks does and the recovery row it is to mark is still there |
| `Exchanges.UndisturbedExchange` | apps/api/routes/mfa.py:165-228 | The checks and the commit with nothing in between are the one request of the sequential model |
| `Exchanges.UndisturbedDisabling` | apps/api/routes/mfa.py:260-299 | And so for disabling MFA |
| `PasswordChanges.NewPasswordBeatsTheExchange` | apps/api/routes/mfa.py:213-216 | A new password between the checks of an exchange or a disabling and its commit makes the session it hands out dead on arrival, as long as no change is stale |
| `Sessions.PurgeMembers` | services/auth/token_revocation.py:35-44 | The purge forgets exactly the revocations that expired before now |
| `SessionService.AuthService.GetCurrentUser` | apps/api/auth.py:47-100 | The chain of guards decides as specified |
| `SessionService.AuthService.RevokeToken` | services/auth/token_revocation.py:9-25 | Idempotent insert under the unique token id |
| `SessionService.AuthService.PurgeExpiredRevocations` | services/auth/token_revocation.py:35-44 | Deletes the expired rows and counts them |
| `SessionService.AuthService.SignIn` | apps/api/routes/auth.py:142-227 | A session, or a challenge for MFA users, exactly for an active user with the right password |
| `SessionService.AuthService.SignOut` | apps/api/routes/auth.py:346-376 | Revokes the presented token until its own expiry |
| `SessionService.AuthService.VerifySecondFactor` | apps/api/routes/mfa.py:71-96 | TOTP first, else one unused recovery row of the user, which is marked used |
| `SessionService.AuthService.ExchangeChallenge` | apps/api/routes/mfa.py:165-228 | The whole exchange: guards, factor, revocation, session; a refusal changes nothing |
| `SessionService.AuthService.PersistRecoveryCodes` | apps/api/routes/mfa.py:53-68 | Replaces the user's codes and nobody else's, or changes nothing when a drawn code repeats |
| `SessionService.AuthService.DisableMfa` | apps/api/routes/mfa.py:260-299 | Spends the factor, drops secret and codes, issues a session |
| `SessionService.AuthService.ChangeOwnPassword` | services/auth/password_management.py:84-145 | Succeeds exactly for the right current and a different new password, and bumps the version |
| `SessionService.AuthService.AdminResetPassword` | services/auth/password_management.py:158-198 | Forces a change, bumps the version, never for the actor's own account |
| `AdminUsers.AdminAlwaysRemains` | services/admin/user_management.py:110-218 | However activations, deactivations and role replacements overlap or abort, under the mutation lock an active ADMIN remains in every state and no user holds a role twice |
| `AdminUsers.WithoutTheLockNobodyRemains` | services/admin/user_management.py:110-126 | Without the lock the only two admins can deactivate each other, both successfully |
| `AdminUsers.ReplacementIsExact` | services/admin/user_management.py:151-210 | A replacement succeeds exactly under the stated conditions and then leaves the requested roles, all of them, none twice, in canonical order |
| `AdminUsers.AdminUserManagement.ActiveAdminCountExcluding` | services/admin/user_management.py:79-92 | Zero exactly when no other active ADMIN exists |
| `AdminUsers.AdminUserManagement.SetUserActive` | services/admin/user_management.py:110-141 | Decides and writes as specified, and keeps an active ADMIN |
| `AdminUsers.AdminUserManagement.ReplaceUserRoles` | services/admin/user_management.py:151-218 | Decides and writes as specified, clearing the role rows before inserting |
| `Workspace.QueriesMean` | services/transactions/workspace.py:120-136 | The WHERE clause of each table, with merchants resolved by name, means exactly the filter; tables that the type or status filter excludes match nothing |
| `Workspace.SelectedIff` | services/transactions/workspace.py:388-441 | The union holds exactly the matching records of the five tables; fees show N/A and vanish under a status filter |
| `Workspace.PagesConcatenate` | services/transactions/workspace.py:443-451 | When no two tables share an id and creation time, the pages at 0, L, 2L, ... are together the whole list in descending order, each record once, however ORDER BY arranges each answer |
| `Workspace.PagesLoseIff` | services/transactions/workspace.py:443-451 | For every page size, under the primary keys alone: some answers lose a matching record on the way through the pages if and only if two records with one id and creation time stand on either side of a page boundary |
| `Workspace.SharedKeyLosesARecord` | services/transactions/workspace.py:443-451 | The tables admit it: a payment and a refund that agree on both are such a pair |
| `Workspace.CountsAddUp` | services/transactions/workspace.py:371-386 | The per-type counts add up to the length of the union |
| `Workspace.Listing.Counts` | services/transactions/workspace.py:371-386 | Each count is the number of matching rows of its type, the total the length of the list |
| `Workspace.Listing.ReconciledIds` | services/transactions/workspace.py:477-500 | The batched lookup flags a record of the page exactly when the per-row predicate holds |
| `Workspace.Listing.DiscrepancyIds` | services/transactions/workspace.py:501-525 | The same for discrepancies, for records whose id is not empty |
| `Workspace.Listing.ListTransactions` | services/transactions/workspace.py:317-538 | Page, total, summary, merchant names and flags of one call |
| `PeriodClose.PartsIff` | services/period.py:196-351 | The seven controls pass, and the blocking count is 0, exactly when each found its part of the period ready in the books its own query read |
| `PeriodClose.ReadyIff` | services/period.py:196-351 | On books that stand still that is: nothing of the period is open and each of its discrepancies has a SUCCEEDED execution |
| `PeriodClose.PaymentsBlockTheClose` | services/period.py:200-212 | RECONCILED is not a payment status (packages/schemas/enums.py): while payments keep to the vocabulary, a period with a payment in it never closes |
| `PeriodClose.ClosedOnceAndReady` | services/period.py:353-416 | However attempts, evaluations, crashes and other work overlap, down to the query of each control, a period is CLOSED exactly when one attempt closed it, never two, on a stored evaluation with is_ready and blocking count 0 whose every control found its part ready in the books it read |
| `PeriodClose.BlockedAttemptOnlyRecords` | services/period.py:387-391 | A blocked attempt leaves its evaluation, with a positive blocking count, and nothing else |
| `PeriodClose.ClosesOnStaleBooksIff` | services/period.py:361-396 | Whatever happens from the lock to the commit, the attempt closes the period if and only if each control found its part ready in the books it read, and leaves it closed over unready books if and only if moreover the last change made them so |
| `PeriodClose.ClosesOnReadyBooksIff` | services/period.py:361-396 | Without a change while the lock is held, the attempt closes the period if and only if the books are ready |
| `PeriodClose.ClosesThoughNeverReady` | services/period.py:316-351 | The queries are no snapshot: an execution that fails and a payment that arrives between the fifth and the sixth let a period close that was ready at no moment of the attempt |
| `PeriodClose.ResolvedByTheChain` | services/period.py:232-251 | In every state the services reach, the close check finds a discrepancy resolved if and only if investigation, evaluation, request and execution lead from it to an execution that SUCCEEDED |
| `PeriodClose.PeriodService.EvaluateCloseReadiness` | services/period.py:196-351 | The nested loops with their early exits compute the specified controls |
| `PeriodClose.PeriodService.RecordPeriodEvaluation` | services/period.py:44-69 | Appends the evaluation of the current books |
| `PeriodClose.PeriodService.ClosePeriod` | services/period.py:353-416 | One attempt: stale read, re-read, evaluation row, and CLOSED exactly on ready books |
| `Money.RoundIsNearest` | packages/schemas/money.py:95-99 | The rounded amount is on the grid, at most half a unit away, even on a tie, and no multiple of the grid is nearer |
| `Money.RoundIsUnique` | packages/schemas/money.py:95-99 | roundTiesToEven (section 4.3.1 of IEEE 754-2019) determines the result; the sign-and-digits algorithm computes it |
| `Money.RoundIsMonotone` | packages/schemas/money.py:95-99 | Rounding keeps the order of amounts of any two scales |
| `Money.RoundIsIdempotent` | packages/schemas/money.py:95-99 | Rounding twice is rounding once |
| `Money.RoundIsOdd` | packages/schemas/money.py:95-99 | round(-x) = -round(x) |
| `Money.RoundsToTheGridIff` | packages/schemas/money.py:95-99 | Rounding to n places gives multiples of 10^-n for every amount if and only if n is not negative |
| `Money.ExactGroup` | packages/schemas/money.py:55-61 | Amounts of one currency form an exact commutative group with subtraction as its inverse; operations across currencies are refused |
| `Money.SumsRespectEquality` | packages/schemas/money.py:90-93 | Amounts that compare equal at different scales behave alike in sums |

## Left out

- The web frontend, routing, wire schemas, migrations, seed data, role permissions on routes, notifications, security events and audit decoration.
- The language-model provider, its prompts and the investigation service; an investigation is a row with a discrepancy.
- Reporting and period metrics: sums and floating-point ratios that no other property here depends on.
- Hash, password hash, token signature, one-time password and encryption internals; tokens cannot be forged here by construction.
- Text, number and date parsing below the level of validation: a cell carries what the libraries make of it.
- Decimal context precision, Numeric overflow and the sign of a zero sum.
- IngestionService.Service.CreateRun: submissions one after another; a commit race between two of them, the only way to the DUPLICATE answer after a conflict, is not modelled, nor is a failure of the duplicate lookup itself.
- ReconciliationEngine.Engine.RunReconciliation: severity and type columns are left out; overlapping engine runs are not modelled.
- Governance.GovernanceSafety: service calls one after another; overlap of executions is in ActionExecution and ExecutionOverlap, overlap of decisions in GovernanceOverlap; creation races on requests are not modelled.
- Sessions.FactorsAreSingleUse: requests one after another; overlapping exchanges are in Exchanges.
- Exchanges.SessionsPerChallenge: commit and session are one step, because nothing read in between matters; a fault between them is the lost exchange. Sign-in, sign-out, MFA setup and confirmation, regeneration of codes and resets stay whole.
- Sessions.DeadForever: requests one after another; PasswordChanges says what overlap changes.
- Sessions.SessionAcceptedIff: requests one after another, as above.
- Sessions.NewPasswordEndsEverySession: requests one after another, as above; the actor of a reset only needs a good session here; the permission check is left out.
- AdminUsers.AdminAlwaysRemains: one process; the lock is an in-process one in the code and does not reach across processes.
- Workspace.Listing.ListTransactions: SQL text matching and its wildcards are a parameter; the detail and lineage views are left out.
- Workspace.Listing.DiscrepancyIds: an empty record id is flagged only as a source, because an empty related id is skipped; primary keys are never empty.
- IngestionService.Service.TryRow: a service object sees one directory of merchants and orders; they grow between events in IngestionRuns.
- PeriodClose.ClosedOnceAndReady: one reading per control; the control of exceptions sends several queries. A row lock that the database ignores is not modelled.
- Validation.FirstFailureDecides: a row that is no object at all, which is rejected as INVALID_FIELD, cannot be expressed here.
- Materialisation is a set of functions that read the tables; the rows they build are inserted by the service. References with two matches raise, as `scalar_one_or_none` does.
