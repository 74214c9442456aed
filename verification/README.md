# Verification model of the n8n operator

This project models the operator's core in Dafny and proves what its design promises:
the operation lifecycle as a concurrent system, the serial service it is built from, the
hash-chained audit log, the resumable table copy, and the algorithms whose meaning must
be preserved (definition diff, scope patterns, secret scrubbing, pointers, bindings).

`dafny verify dfyconfig.toml` checks everything.

## How the model is laid out

| module | what it models |
|---|---|
| `StateMachine`, `OperationStore` | the fifteen-edge transition table; rows, events, votes and audit entries, and the statements that change them |
| `Protocol` | any number of threads holding possibly stale rows, private uncommitted writes, row locks, commit, rollback, crash and clock ticks; the execute handler's several transactions around the call to n8n |
| `ProtocolLogs`, `ProtocolDispatch`, `ProtocolQuorum`, `ProtocolLimit` | four inductive invariants of that system and what they mean for every run |
| `ProtocolRefusals`, `ProtocolStranded`, `ProtocolOutcomes`, `ProtocolDeadlines` | what a refused execute leaves behind; for whom an operation is dispatched; that a done operation carries what its call reported; that nobody expires early |
| `ProtocolRace` | when the concurrency limit holds at all, and the runs that break it and other promises |
| `UseCases` | what one request does to the database, as a function |
| `Deadlines`, `Acts`, `Submissions`, `Approvals` | what those requests answer and leave, in the columns of the rows: when something expires, succeeds, is refused and with which error; and that approval is never skipped |
| `Service` | the service and its repositories as a class over a database session, proved against `UseCases` |
| `ProtocolServes`, `ProtocolSweeps` | a request or a sweep served alone is a run of `Protocol` that ends as `UseCases` says: the two descriptions are of one program; and what a lost race does |
| `Sweeps`, `Histories`, `SingleUse`, `RateLimit`, `Lineage`, `RetryKeys` | properties of serial histories |
| `Ballots` | when a verdict under a frozen policy is stored |
| `AuditChain`, `AuditLog` | chain verification, anchors, the writer, paged reads |
| `AuditWriters` | several transactions writing one audit log |
| `TableCopy` | the checkpointed copy between databases |
| `DefinitionDiff`, `DefinitionPatch`, `DefinitionHash` | the structural diff, applying it, and when it agrees with the definition hash |
| `DefinitionEntries`, `DefinitionNodes` | which entries the diff holds, in terms of the two definitions |
| `ScopePattern`, `GlobMeaning`, `ScopeFolding`, `Authorization` | globs and LIKE patterns, what they match, with and without regard to case; the evaluator and the frozen approver list |
| `Redaction`, `RedactionMeaning`, `RedactionLists`, `JsonPointer`, `Handles` | scrubbing, pointer printing, the binding preimage |

A digest is an arbitrary function without collisions; a clock reading, a preflight
answer, a schema check and what n8n reports are parameters. An operation's ULID is read as
the number it encodes. A session rolls back when an error leaves the session scope and
commits otherwise, so whether the caller catches an error inside the scope is a parameter
(`caught`); the approval channels never do (`src/n8n_operator/cli/commands/operations.py:497-503`,
`src/n8n_operator/approval/routes.py:187-222`).

## Where the code is narrower than its comments

The model follows the code.

- A refused execute is documented to leave the handle unburned and everything as it was
  (`src/n8n_operator/core/service.py:2916-2919`). The tool handler catches the error inside the
  session scope (`src/n8n_operator/mcp/tools.py:945-956`), which then commits.
  `ProtocolRefusals.RefusalSpendsIff`: in every run, whatever refuses an execute, its
  transaction has burned the handle exactly when the refusal came after the burn and the
  transaction committed; the operation is then never dispatched, and otherwise no handle
  is spent. Two refusals come after the burn: the limit's, and a T10 lost to a
  cancellation or an expiry between the read and the burn, which looks only at the handle
  (`src/n8n_operator/storage/repository.py:664-681`). `ProtocolLimit.RefusedExecute` shows both
  endings of the first, `ProtocolRace.BurnForNothing` builds a run of the second, and
  `SingleUse.ExecuteIff` says what one request spends.
- Quorum approval is documented to rely on a state check (`src/n8n_operator/core/service.py:2297-2301`),
  which a below-quorum approval never meets (`src/n8n_operator/core/service.py:2342-2354`).
  `Ballots.VoteStoredIff` says exactly when a verdict is stored, and
  `Ballots.ExpiredVoteIsStored` gives a history that stores one on an expired operation.
  The tally invariants of `ProtocolQuorum` hold all the same.
- With team approval an authorized principal may execute what another one requested, but
  dispatch reads the row under the single-principal ownership rule
  (`src/n8n_operator/core/service.py:3079-3082`) and refuses it after T10 has committed.
  `ProtocolStranded.DispatchProceedsIff`: in every run, the thread that committed T10 goes on
  to the call exactly when it acts for the requester.
  `ProtocolStranded.OnlyItsRequesterDispatches`: otherwise the operation is never called and
  never leaves EXECUTING; `ProtocolStranded.OutsiderStrands` builds the run.
- The single-writer argument for the concurrency limit is SQLite's. `ProtocolRace.LimitHoldsIff`:
  for every configuration and workflow, all runs keep the limit exactly when one
  transaction writes at a time or the limit is zero; `ProtocolRace.RacePast` builds the
  run past it, for any positive limit.
- The audit writer reads the tip and appends as two statements (`src/n8n_operator/audit/writer.py:80-103`).
  `AuditWriters.VerifiesIff`: every run leaves a log that verifies exactly when write
  transactions exclude each other and, besides, the database refuses an append over a tip
  that is no longer current or every transaction takes the write lock before it reads the
  tip. Exclusion alone is not enough (`AuditWriters.ForkOverStaleTip`). A transition's
  compare-and-set takes the lock first (`src/n8n_operator/core/service.py:377-404`), the audit entry
  of a denied submission does not (`src/n8n_operator/core/service.py:1818-1828`), and the storage
  layer asks for no isolation level (`src/n8n_operator/storage/session.py:60-146`). The results of
  `AuditLog` are about a log written under these rules.
- The anchor check reads as many rows as the anchor's sequence number says
  (`src/n8n_operator/core/service.py:3532`), but rolled-back transactions may consume numbers. An
  untouched log then fails its own anchor: `AuditChain.OwnAnchorHoldsIff` says exactly
  when, `AuditChain.SkippedNumberFailsItsAnchor` gives the smallest such log, and
  `AuditChain.AnchorHoldsIff` what an anchor pins down on any copy, gaps or not.
- The defensive second compare-and-set (`src/n8n_operator/core/service.py:387-406`) is modelled,
  and proved never to be entered.
- The diff is documented as empty exactly when the hashes agree
  (`src/n8n_operator/core/definition_diff.py:177-180`). It overlooks nodes without an id
  and all but the last of nodes sharing one (`src/n8n_operator/core/definition_diff.py:152-153`),
  and it compares with `==`, for which 1, 1.0 and true are one, while the hash is taken
  over text that tells them apart (`src/n8n_operator/n8n/canonicalization.py:133-153`).
  `DefinitionDiff.QuietIff` says exactly when the diff is empty, for any two definitions,
  and `DefinitionDiff.CleanIffNothingHides` what distinct ids contribute.
  `DefinitionHash.HashAgreesIff`: against live definitions with as many nodes, hash and
  diff agree exactly when the registered one has distinct ids everywhere and no number
  with a second spelling: no boolean, no integer that is a double too, no float that is
  whole. The equal number of nodes is essential
  (`DefinitionHash.NodeWithoutIdIsInvisible`), unless the live ids are distinct too
  (`DefinitionHash.EmptyMeansSameAmongCleanIff`); `DefinitionHash.OneAgainstTrue` is an input
  where only the spelling differs.
- The LIKE translation is documented as exact. Bracket classes are not translated
  (`src/n8n_operator/core/authorization.py:198-199`): for a case-sensitive LIKE,
  `ScopePattern.AgreeIffNoClass` gives the exact condition. The call site names no case
  rule (`src/n8n_operator/storage/repository.py:451-462`), and SQLite's LIKE folds ASCII letters:
  then `ScopeFolding.FoldingAgreesIff` adds that the pattern has no letter, and over the
  lower-case identifiers the registry admits (`src/n8n_operator/registry/loader.py:59`)
  `ScopeFolding.LowercaseAgreesIff` adds that it has no capital.
- A retry's stored key is documented to be scoped to its parent
  (`src/n8n_operator/core/service.py:1843-1853`). Keys of retries are (`RetryKeys.RetryKeyIsInjective`),
  but a plain request may choose a key that spells a retry's.
  `RetryKeys.ReplayHasParentIff`: in every history a replay answers with an operation of
  the submitted parent exactly when both were retries or neither was;
  `RetryKeys.PlainKeyAnswersRetry` is a history where a retry gets a plain operation.
- Scrubbing is documented to replace every occurrence of every secret
  (`src/n8n_operator/core/redaction.py:55-64`). The inserted marker may complete a new one.
  `Redaction.OneSecretIsScrubbedIff` gives the exact condition for one secret, in terms of
  where the marker fits it; `Redaction.BracketedSecretComesBack` is an input.
  `RedactionLists.ListsAreScrubbedIff` gives it for several: every list drawn from them, in
  every order, scrubs everything exactly when replacing none of them brings up one of
  them in a short text, which finitely many texts decide.

## Model

| member | source | states |
|---|---|---|
| StateMachine.TerminalStates | src/n8n_operator/core/state_machine.py:55-88 | the states no edge leaves are exactly the eight documented terminal ones |
| StateMachine.PathsAreShort | src/n8n_operator/core/state_machine.py:55-71 | every walk from T01 has at most five events, visits no state and takes no edge twice, and stops at the first terminal state |
| OperationStore.VersionDecidesState | src/n8n_operator/core/service.py:388-394 | among all rows an operation ever had, equal versions mean equal states and a later version a state further along |
| OperationStore.MoveKeepsOp | src/n8n_operator/storage/repository.py:683-720 | a legal transition on a row known to the log keeps row, version and log in agreement |
| OperationStore.PutKeeps | src/n8n_operator/core/service.py:351-445 | storing an operation with at most one new, documented event keeps every row, log and audit trail consistent |
| ProtocolLogs.StepKeeps | src/n8n_operator/core/service.py:351-486 | every step of every thread keeps logs walking the table, trails matching logs, and overlays under their own row locks |
| ProtocolLogs.LogsWalkTheTable | src/n8n_operator/core/service.py:351-445 | in every state of every run each log walks the table to the current state, its length is the version and at most five, nothing follows a terminal state, and there is exactly one audit entry per event |
| ProtocolLogs.NoOrphanAudit | src/n8n_operator/core/service.py:404-414 | no audit entry documents a transition of an operation that is not stored |
| ProtocolLogs.RetryIsDead | src/n8n_operator/core/service.py:387-406 | after a lost compare-and-set the transition is no longer legal in the state read again |
| ProtocolLogs.NoRetryInAnyRun | src/n8n_operator/core/service.py:387-406 | no thread of any run enters the defensive second attempt |
| ProtocolLogs.ExpiredAtMostOnce | src/n8n_operator/core/service.py:448-479 | however sweeps and reads race, an expiry is logged at most once and is the last event |
| ProtocolDispatch.StepKeeps | src/n8n_operator/core/service.py:2938-2976 | every step keeps burn, T10, dispatch and outcome in step, committed or in flight |
| ProtocolDispatch.DispatchedAtMostOnce | src/n8n_operator/core/service.py:3044-3137 | in every run: at most one external call per operation, only for one that took T10; done operations were called exactly once; from EXECUTING on the handle is burned |
| ProtocolDispatch.CalledOnlyAfterT10 | src/n8n_operator/mcp/tools.py:945-965 | the step that makes the call finds T10 committed as the last event, the handle burned, and no earlier call |
| ProtocolDispatch.WastedHandleNeverRuns | src/n8n_operator/mcp/tools.py:945-956 | an operation whose burn was committed without T10 never executes and is never dispatched, in any continuation |
| ProtocolQuorum.StepKeeps | src/n8n_operator/core/service.py:2275-2414 | every step keeps frozen policy, recorded votes and state in step while deciders hold the row lock |
| ProtocolQuorum.QuorumGuardsApproval | src/n8n_operator/core/service.py:2337-2414 | a pending operation has fewer approvals than the quorum and no rejection; a committed rejection means REJECTED; T06 had the quorum's worth of approvals; every voter is on the frozen list and not the requester |
| ProtocolQuorum.NoPlainApproval | src/n8n_operator/core/service.py:1970-1990 | with team approval on, whatever waits for approval or took T06 carries a frozen policy |
| ProtocolQuorum.ShortListNeverApproves | src/n8n_operator/core/service.py:2337-2362 | a frozen list shorter than the quorum makes T06 unreachable |
| ProtocolLimit.LimitHolds | src/n8n_operator/core/service.py:2963-2976 | with one writing transaction at a time every committed state of every run has at most max_concurrent EXECUTING operations of a workflow |
| ProtocolRace.LimitHoldsIff | src/n8n_operator/core/service.py:2905-2919 | for every configuration and workflow: all runs keep the limit exactly when one transaction writes at a time or the limit is zero |
| ProtocolRace.RacePast | src/n8n_operator/core/service.py:2963-2976 | with several writers and any positive limit, a run from the empty database in which two executes race past it |
| ProtocolRefusals.RefusalSpendsIff | src/n8n_operator/core/service.py:2916-2976 | in every run, for every refused execute, whatever refused it: its transaction burned the handle exactly when the refusal came after the burn and it committed; then nothing ever dispatches the operation, otherwise no handle is spent, and without a commit nothing changes |
| ProtocolRace.BurnForNothing | src/n8n_operator/storage/repository.py:664-681 | with room for one execution, a run from the empty database commits the burn of an operation canceled after execute had read it |
| ProtocolStranded.DispatchProceedsIff | src/n8n_operator/core/service.py:3079-3088 | in every run, a thread whose T10 is committed may enter dispatch and goes on to the call, the first for that operation, exactly when it acts for the requester |
| ProtocolStranded.OnlyItsRequesterDispatches | src/n8n_operator/core/service.py:3079-3082 | in every run, an operation taken into EXECUTING by anyone but its requester is never called and stays there in every continuation |
| ProtocolStranded.OutsiderStrands | src/n8n_operator/core/service.py:2924-2926 | with team approval and room for one execution, a run from the empty database does that |
| ProtocolServes.ServedAlone | src/n8n_operator/core/service.py:2275-2976 | a get, approve, reject, cancel or execute served by one thread is a run of the concurrent system that ends with exactly the database the serial use case leaves, committed or rolled back, and with no lock and no other thread changed |
| ProtocolServes.PreparedAlone | src/n8n_operator/core/service.py:1874-2019 | so is a prepare that passes its first checks, up to where validation, preflight and policy send it |
| ProtocolServes.SubmittedAlone | src/n8n_operator/core/service.py:1771-2102 | so is every prepare and retry that is not denied, whether it creates, replays, conflicts or fails |
| ProtocolServes.RecordedAlone | src/n8n_operator/core/service.py:3079-3137 | so are the requester's dispatch and the recorded outcome after a committed T10 |
| ProtocolOutcomes.StepKeeps | src/n8n_operator/core/service.py:2979-3137 | each step of the interleaved system keeps every outcome, recorded, staged or still in a thread's hands, one that a call for that operation reported |
| ProtocolOutcomes.OutcomeIsTheReport | src/n8n_operator/core/service.py:3032-3041 | in every run a done operation is SUCCEEDED, FAILED or UNKNOWN exactly as the call made for it reported success, error or indeterminate, and a reported call means it is executing or done |
| ProtocolDeadlines.StepKeeps | src/n8n_operator/core/service.py:448-479 | each step of the interleaved system keeps the deadlines of every copy of a row that is still current, and every expiry, decided, staged or committed, past its deadline |
| ProtocolDeadlines.NobodyExpiresEarly | src/n8n_operator/core/state_machine.py:114-137 | in every state of every run an expired operation took T08 past the approval deadline in its row, or T11 past the execution deadline, however stale the row it was expired from |
| ProtocolSweeps.SweptAlone | src/n8n_operator/core/service.py:3272-3294 | a sweep over distinct operations served by one thread is a run that ends with the database the serial sweep leaves |
| ProtocolSweeps.LostRace | src/n8n_operator/core/service.py:448-479 | in every run, after a lost update, an expiry goes on with the current, later row and no error, and a request's own transition ends with the error; nothing is written |
| Deadlines.LazyIff | src/n8n_operator/core/state_machine.py:114-137 | a read makes the operation Expired with T08 exactly when it is PendingApproval past its approval deadline, Expired with T11 exactly when it is Approved past its execution deadline, and leaves it alone exactly otherwise |
| Deadlines.ExpireIff | src/n8n_operator/core/service.py:448-479 | the same on the database, with the clock's event and audit entry and nothing else |
| Deadlines.SweepLeavesNoneLapsed | src/n8n_operator/core/service.py:3272-3294 | after a sweep no stored row is PendingApproval or Approved past its own deadline, every such row is Expired, every other one untouched |
| Deadlines.NoLateExecution | src/n8n_operator/core/service.py:2924-2947 | on any database an execute past the execution deadline fails and starts nothing; the error is OperationExpired exactly for a matching, unspent handle and a caller who may see the operation, in its own environment where that is checked |
| Deadlines.NoLateApproval | src/n8n_operator/core/service.py:2275-2362 | an approval past the approval deadline leaves the operation Expired, whatever it answers |
| Deadlines.StartsOnlyInTime | src/n8n_operator/core/service.py:2924-2976 | in every history an execute that starts an operation finds it Approved and within its execution deadline |
| Acts.GetIff | src/n8n_operator/core/service.py:673-717 | a read succeeds exactly for the requester or, under v2, an authorized caller, and shows the operation as it stands; anyone else gets not-found |
| Acts.CancelIff | src/n8n_operator/core/service.py:2777-2807 | a cancellation succeeds exactly for an entitled caller while the operation waits or is approved, with T09 or T12 and its audit entry; each failure has its error and writes nothing |
| Acts.PlainDecisionIff | src/n8n_operator/core/service.py:2307-2335 | without a frozen policy an authorized decision settles exactly a pending operation, T06 with the execution deadline or T07; each refusal has its error and writes nothing |
| Acts.QuorumDecisionIff | src/n8n_operator/core/service.py:2337-2362 | an approval under a frozen policy: who is refused and how, when it is only recorded, and when it approves |
| Acts.QuorumRejectionIff | src/n8n_operator/core/service.py:2401-2413 | a rejection under a frozen policy: who is refused and how, and that the first rejects |
| Acts.LateApprovalIff | src/n8n_operator/core/service.py:2337-2362 | past the approval deadline an approval succeeds exactly as an eligible approver's first verdict that stays below the quorum, and approves nothing |
| Acts.ExecuteAnswers | src/n8n_operator/core/service.py:2921-2976 | each answer of an execute exactly when it applies, in the order of the checks, and what success and each refusal leave |
| Acts.RecordIff | src/n8n_operator/core/service.py:3011-3041 | an outcome is recorded exactly on an EXECUTING operation: success as T13 to SUCCEEDED, error as T14 to FAILED, indeterminate as T15 to UNKNOWN, with event and audit entry |
| Acts.OneOperation | src/n8n_operator/core/service.py:448-486 | a request on one operation acts on it as lazy expiry shows it, with the executing operations of its workflow counted, changes no other operation, and rolls back to the database as it was |
| Acts.ScopeIff | src/n8n_operator/storage/session.py:159-177 | an answer, or an error caught inside the scope, keeps what was written; an error that leaves it returns to the last commit |
| Submissions.IntakeIsNew | src/n8n_operator/core/service.py:1921-1996 | a new operation is Invalid, Blocked, PendingApproval or Approved exactly as validation, preflight and the entry's approval rule say, with its two events and audit entries, deadlines, and the policy frozen exactly under v2 |
| Submissions.PrepareIs | src/n8n_operator/core/service.py:1771-2019 | a prepare, from the request alone: denied by size or by creations in the last sixty seconds, answered from its slot or with a conflict, refused for a taken handle, or a new operation with every column |
| Submissions.RetryIs | src/n8n_operator/core/service.py:2047-2102 | a retry, from the request and the parent: not found for strangers; refused unless the parent is Failed, Unknown, Blocked, Expired or Rejected and has fewer than ten ancestors; otherwise a submission of the parent's workflow and arguments |
| Approvals.OnlyCreationsAdd | src/n8n_operator/core/service.py:1874-1996 | whatever any request newly stores is the operation it submits, in the state and with the columns its checks and entry call for |
| Approvals.ApprovalsAreAsked | src/n8n_operator/core/service.py:2275-2362 | in every history each T06 carries the name of somebody who asked to approve that operation |
| Approvals.NeedsApproval | src/n8n_operator/core/service.py:1953-1996 | in every history an operation submitted under an entry that needs approval is approved, executing or done only with T06 third in its log, asked for after the submission, and executing or done only with T10 next |
| Service.Store.UpdateState | src/n8n_operator/storage/repository.py:617-662 | updates state, version and the given columns iff the version is the expected one; else fails and changes nothing |
| Service.Store.AppendEvent | src/n8n_operator/storage/repository.py:729-751 | appends one event to the operation's log |
| Service.Store.UpdateWithEvent | src/n8n_operator/storage/repository.py:683-720 | the compare-and-set and its event, both or neither |
| Service.Store.Burn | src/n8n_operator/storage/repository.py:664-681 | burns the handle iff it was not burned, and says whether it did |
| Service.Store.WriteAudit | src/n8n_operator/audit/writer.py:60-103 | appends one audit entry |
| Service.Store.FindByIdempotency | src/n8n_operator/storage/repository.py:383-403 | finds the one operation holding the idempotency slot, or none |
| Service.Store.ListOverdue | src/n8n_operator/storage/repository.py:482-508 | lists every overdue operation exactly once and nothing else |
| Service.Store.ApplyAndAudit | src/n8n_operator/core/service.py:351-415 | on a possibly stale row: moved, logged and audited when legal and current; otherwise nothing changes and the state error is raised, never a bare lock error |
| Service.Store.MoveCurrent | src/n8n_operator/core/service.py:371-415 | the same on the row as it stands |
| Service.Store.ApplyLazyExpiry | src/n8n_operator/core/service.py:448-479 | a current row past its own approval or execution deadline expires by T08 or T11; a stale one yields the settled row and changes nothing; any other row is returned as it was |
| Service.Store.GetRow | src/n8n_operator/core/service.py:482-486 | the row, lazily expired, or not found |
| Service.Store.GetOwned | src/n8n_operator/core/service.py:673-717 | the same for its requester or, under v2, an authorized caller; anyone else gets the same not-found |
| Service.Store.GetOperation | src/n8n_operator/core/service.py:3140-3156 | what a read answers and leaves |
| Service.Store.CancelOperation | src/n8n_operator/core/service.py:2777-2807 | T09 or T12 by state, else the state error |
| Service.Store.RecordDecision | src/n8n_operator/storage/repository.py:831-852 | one approver's verdict is stored and nothing else changes |
| Service.Store.DecideByQuorum | src/n8n_operator/core/service.py:2337-2362 | eligibility, one verdict each, tally, and T06 or T07 when due |
| Service.Store.ApproveOperation | src/n8n_operator/core/service.py:2275-2362 | approval with and without a frozen policy |
| Service.Store.RejectOperation | src/n8n_operator/core/service.py:2365-2414 | rejection with and without a frozen policy |
| Service.Store.ExecuteOperation | src/n8n_operator/core/service.py:2856-2976 | the checks, the burn, the count and T10, and what a refusal leaves in the open transaction |
| Service.Store.RecordOutcome | src/n8n_operator/core/service.py:2979-3041 | succeeds exactly on an EXECUTING operation, and stores T13 to SUCCEEDED, T14 to FAILED or T15 to UNKNOWN as reported |
| Service.Store.ExpireOverdueOperations | src/n8n_operator/core/service.py:3272-3294 | every row past its own deadline expires once by T08 or T11, the rest is untouched, no row past its deadline remains, and the answer is how many there were |
| Service.Store.Deny | src/n8n_operator/core/service.py:1818-1841 | a refused submission's audit entry is committed before the error is raised |
| Service.Store.CreateOperation | src/n8n_operator/core/service.py:1874-1921 | a PREPARING row at version one with its T01 event and audit entry |
| Service.Store.TakeIn | src/n8n_operator/core/service.py:1874-2002 | a new operation in the state, and with the deadlines and the frozen policy, that its checks, its entry and v2 call for |
| Service.Store.PrepareOrRetry | src/n8n_operator/core/service.py:1771-2019 | size and rate limits, idempotent replay or conflict, creation |
| Service.Store.PrepareOperation | src/n8n_operator/core/service.py:1689-1768 | the same for a fresh request, from its own terms: which denial, replay, conflict or new operation |
| Service.Store.ChainTooDeep | src/n8n_operator/core/service.py:2051-2062 | true iff the operation already has ten ancestors; the walk terminates |
| Service.Store.RetryOperation | src/n8n_operator/core/service.py:2022-2102 | not found, refused, or a new operation with the parent's workflow and arguments, exactly as the parent's state and its number of ancestors say |
| Service.Store.Commit | src/n8n_operator/storage/session.py:170-172 | the working database becomes the committed one |
| Service.Store.Rollback | src/n8n_operator/storage/session.py:173-175 | the working database returns to the committed one |
| Service.Store.Serve | src/n8n_operator/storage/session.py:159-177 | one request in one session scope: answer, and committed or rolled-back database, as the use case says |
| Sweeps.LazyLater | src/n8n_operator/core/state_machine.py:114-137 | expiring early and again later is expiring once |
| Sweeps.PerformSame | src/n8n_operator/core/service.py:448-486 | databases that show the same to reads give every request the same answer and show the same afterwards |
| Sweeps.SweepsAreInvisible | src/n8n_operator/core/service.py:3272-3294 | deleting every sweep from a timed run changes no answer and nothing any later read shows |
| Sweeps.SameRequestsSameAnswers | src/n8n_operator/core/service.py:3272-3294 | runs of the same requests at the same times, with any sweeps between, answer alike |
| Sweeps.SweepExpiresOnce | src/n8n_operator/storage/repository.py:482-508 | a sweep over any list expires each listed overdue operation once and touches nothing else |
| Sweeps.PerformKeepsKeys | src/n8n_operator/core/service.py:1843-1873 | no two operations ever hold one idempotency slot |
| Histories.AfterSteps | src/n8n_operator/core/service.py:1771-2102 | a request adds at most the operation it names, past all its checks; identities and terminal states never change |
| SingleUse.ExecuteIff | src/n8n_operator/core/service.py:2922-2976 | execute starts the operation exactly when every check passes and there is room, burns the handle exactly when every check passes, and otherwise leaves at most an expiry |
| SingleUse.HandleIsSingleUse | src/n8n_operator/core/service.py:2938-2961 | in every serial history, once a handle was spent every later execute of the operation is refused and changes nothing but an expiry |
| Ballots.VoteAcceptedIff | src/n8n_operator/core/service.py:2337-2414 | a verdict is answered with success exactly when it is an eligible approver's first and the operation waits for approval, or it is an approval still below the quorum |
| Ballots.VoteStoredIff | src/n8n_operator/core/service.py:2337-2414 | on the database, through a channel that lets errors out, the verdict is there afterwards exactly under that condition on the lazily expired operation |
| Ballots.ExpiredVoteIsStored | src/n8n_operator/core/service.py:2342-2354 | a history from the empty database that stores an approval on an expired operation |
| RateLimit.EveryWindowHolds | src/n8n_operator/core/service.py:1806-1817 | with a fixed limit k and creation stamps no earlier than the check, every 60-second window of every history has at most k created operations of the workflow |
| Lineage.LineageHolds | src/n8n_operator/core/service.py:1680-1686 | no operation is its own ancestor, none has eleven ancestors, and every parent is Failed, Unknown, Blocked, Expired or Rejected, with its child's workflow and arguments |
| Lineage.ParentComesFirst | src/n8n_operator/core/service.py:2047-2102 | a parent was stored before its child appeared |
| Lineage.ParentStaysPut | src/n8n_operator/core/service.py:2047-2051 | a parent's state, once retried, never changes again |
| RetryKeys.RetryKeyIsInjective | src/n8n_operator/core/service.py:1843-1853 | equal stored keys of retries come from one parent and one key |
| RetryKeys.ReplayHasParentIff | src/n8n_operator/core/service.py:1855-1873 | in every history a replay has the submitted parent exactly when both submissions were retries or neither was; where they differ the plain one's own key spells the retry's |
| RetryKeys.PlainKeyAnswersRetry | src/n8n_operator/core/service.py:1843-1873 | a history from the empty database in which a retry is answered with a plain operation |
| AuditChain.NeverGenesis | src/n8n_operator/audit/chain.py:91-115 | no entry hash equals the genesis value |
| AuditChain.VerifyChain | src/n8n_operator/audit/chain.py:144-179 | intact iff every entry carries sixty-four zeros or its predecessor's hash and its own hash; otherwise the earliest failing entry, and which check failed |
| AuditChain.VerifiesIffWritten | src/n8n_operator/audit/writer.py:80-103 | a log in sequence order verifies exactly when the writer could have written it |
| AuditChain.OneTipOneChain | src/n8n_operator/audit/chain.py:144-179 | two chains that end in one hash agree entry by entry and in length |
| AuditChain.VerifyAnchor | src/n8n_operator/core/service.py:3513-3555 | the anchor check on a copy, and which of its four answers it gives |
| AuditChain.AnchorHoldsIff | src/n8n_operator/core/service.py:3528-3555 | an anchor of any authentic log holds on a copy exactly when the rows read are, in every hashed field, the log's up to the anchored entry, and that entry kept its number |
| AuditChain.OwnAnchorHoldsIff | src/n8n_operator/core/service.py:3532-3541 | on the untouched log itself an anchor holds exactly when no number up to it was skipped or nothing was appended since |
| AuditChain.SkippedNumberFailsItsAnchor | src/n8n_operator/core/service.py:3532-3541 | an authentic log of two entries that fails its own anchor |
| AuditChain.AnchorHoldsIffPrefixAgrees | src/n8n_operator/core/service.py:3528-3555 | an anchor of an authentic gap-free log holds on a copy exactly when the copy's first n rows are the log's |
| AuditChain.OnlyAnchorsSeeTruncation | src/n8n_operator/core/service.py:3528-3555 | the cut tail of any authentic log verifies, and fails every anchor beyond the cut |
| AuditWriters.VerifiesIff | src/n8n_operator/audit/writer.py:80-103 | transactions lock, read the tip, append and commit in any interleaving: every run's log verifies exactly when writers exclude each other and stale reads are refused or the lock comes before the read |
| AuditWriters.ForkOverStaleTip | src/n8n_operator/core/service.py:1818-1828 | where neither holds, a transaction that read the tip before another committed forks the log, even under exclusion |
| AuditLog.WalkReturnsTheSnapshot | src/n8n_operator/core/service.py:1513-1556 | following cursors returns what was in scope below the starting point when the walk began, while entries are appended, within a bounded number of pages |
| AuditLog.FollowingCursors | src/n8n_operator/storage/repository.py:1165-1227 | the walk from the top returns each in-scope entry of the starting log once, in descending order |
| AuditLog.AnchorVerifiesIff | src/n8n_operator/core/service.py:3389-3464 | a successful anchor verifies against its log, however far that has grown, exactly when it covers the tip or no number up to it was skipped |
| AuditLog.Table.GetLastHash | src/n8n_operator/storage/repository.py:1051-1054 | the tip, or the genesis value of an empty log |
| AuditLog.Table.Write | src/n8n_operator/audit/writer.py:60-103 | appends one entry hashed over the tip it read, and the log stays authentic |
| AuditLog.Table.ListRange | src/n8n_operator/storage/repository.py:1072-1079 | the entries from a sequence number on, in order, up to the limit |
| AuditLog.Table.ListAll | src/n8n_operator/storage/repository.py:1081-1099 | the whole table in order, whatever gaps its sequence has and whatever the page size |
| AuditLog.Table.ListPage | src/n8n_operator/storage/repository.py:1101-1227 | the newest in-scope entries below the cursor |
| AuditLog.Table.ListAuditEvents | src/n8n_operator/core/service.py:1492-1556 | limits outside 1..100 are refused; a cursor is handed on exactly when the page is full |
| AuditLog.Table.GetLatestOk | src/n8n_operator/storage/repository.py:1266-1275 | the latest successful anchor of an implementation |
| AuditLog.Table.PublishAnchor | src/n8n_operator/core/service.py:3389-3464 | publishes the tip unless a success covers it; failures are rows; successful coverage only advances |
| TableCopy.CountsSuffice | src/n8n_operator/storage/postgres_migration.py:96-98 | matching row counts are enough when every destination table is a prefix of its source |
| TableCopy.NoConflict | src/n8n_operator/storage/postgres_migration.py:384-393 | the next chunk in key order never meets a key already copied |
| TableCopy.Migration.InsertWithRetry | src/n8n_operator/storage/session.py:196-238 | three attempts; committed whole or not at all; a key conflict is refused |
| TableCopy.Migration.CopyTable | src/n8n_operator/storage/postgres_migration.py:354-400 | whatever stops it, the table is the source up to a point; a finished copy with a positive chunk size is the source |
| TableCopy.Migration.DestinationEmpty | src/n8n_operator/storage/postgres_migration.py:326-344 | true iff every destination table is empty |
| TableCopy.Migration.Begin | src/n8n_operator/storage/postgres_migration.py:232-260 | which checkpoint and destination states are refused, and where a run starts |
| TableCopy.Migration.CopyNext | src/n8n_operator/storage/postgres_migration.py:266-304 | a completed table is skipped; another is copied and then recorded in the checkpoint |
| TableCopy.Migration.CopyAllTables | src/n8n_operator/storage/postgres_migration.py:180-315 | over any crashes and resumes every destination table stays a prefix of its source; a report is ok exactly when the databases are equal; a refusal changes nothing; enough mild faults let a run finish |
| TableCopy.Migration.DiscardCheckpoint | src/n8n_operator/storage/postgres_migration.py:235-240 | deleting the checkpoint file keeps the prefix invariant |
| DefinitionDiff.Budget.Add | src/n8n_operator/core/definition_diff.py:61-77 | the total counts every entry, the list is the first two hundred |
| DefinitionDiff.DiffGeneric | src/n8n_operator/core/definition_diff.py:84-148 | adds exactly the generic diff's entries, in order |
| DefinitionDiff.DiffObjects | src/n8n_operator/core/definition_diff.py:90-112 | the same for two dictionaries, by sorted key |
| DefinitionDiff.DiffArrays | src/n8n_operator/core/definition_diff.py:113-135 | the same for two lists, by index |
| DefinitionDiff.IndexById | src/n8n_operator/core/definition_diff.py:152-153 | nodes by id with their positions; the last of duplicates wins, nodes without an id are skipped |
| DefinitionDiff.DiffRemoved | src/n8n_operator/core/definition_diff.py:155-159 | removed nodes by ascending id |
| DefinitionDiff.DiffAdded | src/n8n_operator/core/definition_diff.py:160-164 | added nodes by ascending id |
| DefinitionDiff.DiffMatched | src/n8n_operator/core/definition_diff.py:165-188 | matched nodes: content changes, or a move |
| DefinitionDiff.DiffNodes | src/n8n_operator/core/definition_diff.py:151-188 | adds exactly the node entries |
| DefinitionDiff.DiffCanonicalDefinitions | src/n8n_operator/core/definition_diff.py:191-209 | the real total, the first two hundred entries, and whether any were left out |
| DefinitionDiff.EmptyIffEqual | src/n8n_operator/core/definition_diff.py:84-148 | the generic diff is empty exactly when the values compare equal |
| DefinitionDiff.NodesQuietIffAgree | src/n8n_operator/core/definition_diff.py:151-188 | no node entry, for any two lists, exactly when the indexes by id agree in ids, positions and content |
| DefinitionDiff.CleanDiffEmptyIffEqual | src/n8n_operator/core/definition_diff.py:191-209 | with distinct ids everywhere the diff is empty exactly when the definitions compare equal |
| DefinitionDiff.QuietIff | src/n8n_operator/core/definition_diff.py:191-209 | for any two definitions, the diff is empty exactly when the indexes by id agree and connections and settings compare equal |
| DefinitionHash.HashAgreesIff | src/n8n_operator/core/definition_diff.py:177-180 | against live definitions with as many nodes, the hash differs exactly when the diff is not empty, if and only if the registered one has distinct ids and no number with a second spelling |
| DefinitionHash.EmptyMeansSameIff | src/n8n_operator/core/definition_diff.py:3-6 | the same, as an empty diff meaning an equal definition |
| DefinitionHash.EmptyMeansSameAmongCleanIff | src/n8n_operator/core/definition_diff.py:3-6 | among definitions with distinct ids, of any lengths, only the spelling of numbers can hide |
| DefinitionHash.NodeWithoutIdIsInvisible | src/n8n_operator/core/definition_diff.py:152-153 | appending a node without an id to any list shows no change |
| DefinitionHash.OneAgainstTrue | src/n8n_operator/n8n/canonicalization.py:133-153 | one against true: distinct ids, no change shown, another definition |
| DefinitionHash.OddBeyondIsPlain | src/n8n_operator/n8n/canonicalization.py:133-153 | the first odd integer past 53 bits has one spelling |
| DefinitionEntries.EntriesIff | src/n8n_operator/core/definition_diff.py:84-148 | the generic diff reports a change at a path exactly when the two values differ there in that way: present on one side of two like containers, or present on both and unequal as a whole |
| DefinitionNodes.NodeEntriesIff | src/n8n_operator/core/definition_diff.py:151-188 | for any two node lists an entry is reported exactly when it is a removal, an addition, a move of equal content or a change of content, with these positions and this summary |
| DefinitionNodes.NodeEntriesInOrder | src/n8n_operator/core/definition_diff.py:155-188 | removals come before additions and those before the rest |
| DefinitionNodes.ChangesIff | src/n8n_operator/core/definition_diff.py:191-209 | the whole diff holds an entry exactly when it is a node entry or a difference somewhere in connections or settings, at its path; nodes first, then connections, then settings |
| DefinitionPatch.PatchRebuilds | src/n8n_operator/core/definition_diff.py:84-148 | applying the generic diff's entries to the registered value rebuilds the live one |
| GlobMeaning.GlobIff | src/n8n_operator/core/authorization.py:178-184 | the tokens of a pattern are the ones that spell it, no wildcard taken literally, a bracket literal only where no class can be read, and a class closed at its one possible end |
| GlobMeaning.MatchIff | src/n8n_operator/core/authorization.py:178-184 | a pattern matches exactly the strings that can be cut into one piece for each token: anything, one character, that character, or one of the class |
| ScopePattern.LikeIsPlain | src/n8n_operator/core/authorization.py:187-199 | the translated pattern, read under backslash escape, is the original with each character read as itself except the two wildcards |
| ScopePattern.AgreeIffNoClass | src/n8n_operator/core/authorization.py:178-199 | glob and LIKE agree on every string exactly when the pattern has no bracket class, whatever a class would hold |
| ScopePattern.PreFilterIsExact | src/n8n_operator/storage/repository.py:451-462 | for patterns without a bracket the pre-filter keeps exactly the rows the in-memory check keeps |
| ScopeFolding.FoldingAgreesIff | src/n8n_operator/storage/repository.py:451-462 | with a LIKE that folds ASCII case, glob and LIKE agree on every string exactly when the pattern has neither a bracket class nor a letter |
| ScopeFolding.LowercaseAgreesIff | src/n8n_operator/registry/loader.py:59 | over strings without capitals they agree exactly when the pattern has neither a bracket class nor a capital |
| Authorization.Evaluate | src/n8n_operator/core/authorization.py:243-314 | allowed iff no self-decision and one membership, by itself, has a role with the tool, a scope matching the workflow, the environment's organization, and the environment or the star in its list, or exactly the star where no environment is named; each denial reason exactly when it applies |
| Authorization.VerdictInColumns | src/n8n_operator/core/authorization.py:202-314 | each of the six verdicts exactly when it applies, in the columns of the memberships |
| Authorization.MatrixByColumn | src/n8n_operator/core/authorization.py:62-127 | the whole capability matrix, read by tool: exactly which roles have it |
| Authorization.RolesSeparateDuties | src/n8n_operator/core/authorization.py:62-127 | only approver and admin may decide, only operator and admin may prepare or execute, only admin may retry or reconcile, and every role reads |
| Authorization.ComputeEligibleApprovers | src/n8n_operator/core/service.py:627-670 | the list is sorted, without duplicates and without the requester, and holds exactly the principals with an active membership of the organization as approver or admin whose scopes hold the workflow and the environment |
| Authorization.EligibleIffAllowed | src/n8n_operator/core/authorization.py:202-314 | a principal is eligible exactly when the evaluator over everything they hold anywhere allows the decision |
| Redaction.ReplaceSecrets | src/n8n_operator/core/redaction.py:72-77 | every secret replaced, one after another |
| RedactionMeaning.ReplaceAllIff | src/n8n_operator/core/redaction.py:72-77 | replacing a secret is exactly cutting the text at its occurrences from the left and gluing the pieces with the marker |
| RedactionMeaning.FirstListedFirst | src/n8n_operator/core/redaction.py:72-77 | the first listed secret is replaced first |
| RedactionMeaning.ScrubbedEverywhere | src/n8n_operator/core/redaction.py:55-82 | at every path of the value: a text is scrubbed of the nonempty secrets, anything that is neither text nor container is unchanged, and no path appears or disappears |
| Redaction.ScrubbedIsClean | src/n8n_operator/core/redaction.py:55-82 | for secrets that cannot touch the marker, no string of the scrubbed value contains any of them, and shape and keys are unchanged |
| Redaction.PlainSecretsAreScrubbed | src/n8n_operator/core/redaction.py:55-82 | the same for nonempty secrets without brackets that are no part of the marker's word |
| Redaction.ComesBackIff | src/n8n_operator/core/redaction.py:72-77 | replacing a secret leaves it in some text exactly when the marker can complete it: at an offset where both agree, with no earlier occurrence in what precedes |
| Redaction.OneSecretIsScrubbedIff | src/n8n_operator/core/redaction.py:55-82 | one secret is gone from every string of every scrubbed value exactly when the marker cannot complete it |
| RedactionLists.BringsIff | src/n8n_operator/core/redaction.py:72-77 | if replacing one secret brings up another, or itself, in any text, it does so in a text of their characters no longer than the product of their lengths |
| RedactionLists.ListsAreScrubbedIff | src/n8n_operator/core/redaction.py:55-82 | every list drawn from a set of secrets, in every order, leaves none it lists in any string of any scrubbed value, exactly when replacing none of them brings up one of them |
| JsonPointer.PrintPointer | src/n8n_operator/registry/validation.py:62-70 | prints the escaped segments, each behind a slash |
| JsonPointer.ParsePrint | src/n8n_operator/registry/validation.py:62-70 | reading back as in sections 3 and 4 of RFC 6901 gives the segments, for any strings |
| JsonPointer.PrintIsInjective | src/n8n_operator/registry/validation.py:62-70 | different segments print differently |
| Handles.ReadPreimage | src/n8n_operator/core/handles.py:120-125 | the length-prefixed preimage decodes uniquely, whatever the fields contain |
| Handles.BoundInOrder | src/n8n_operator/core/handles.py:101-125 | the five fields are bound in this order, each framed, under the digest's prefix |
| Handles.BindingIsInjective | src/n8n_operator/core/handles.py:101-125 | equal bindings bind the same five values |

## Left out

- Service.Store.PrepareOrRetry: the race in which two callers insert one idempotency key at once, and the loser replays the winner's row after a rollback; served serially the lookup finds the row first.
- Service.Store.PrepareOperation: active snapshot, registry entry and environment resolution before a prepare, execute or retry are taken to succeed; their not-found errors are not modelled.
- Service.Store.RetryOperation: the same resolution errors.
- Service.Store.GetOwned: the evaluator's answer is a parameter here; `Authorization` models how it is found.
- Service.Store.ApproveOperation: v1's single approval row, whose decision repeats what T06 or T07 already says, and approval tokens.
- Service.Store.RejectOperation: the same row and tokens.
- Service.Store.RecordDecision: the decision's time and the client fingerprint.
- Service.Store.WriteAudit: the hash over the tip, which `AuditLog.Table.Write` and `AuditWriters` model.
- Service.Store.ExecuteOperation: the recomputed argument fingerprint, since nothing changes arguments after creation; the several live-check errors are one.
- Service.Store.RecordOutcome: the stored execution result, its redaction by JSONPath and its size cap.
- ProtocolOutcomes.OutcomeIsTheReport: how the call's response is classified as success, error or indeterminate.
- ProtocolServes.ServedAlone: recording an outcome is in `ProtocolServes.RecordedAlone`, submissions in `ProtocolServes.SubmittedAlone`.
- ProtocolServes.SubmittedAlone: denied submissions, whose audit entry is about no operation; what a retry reads of its parent is a transaction of its own.
- ProtocolServes.RecordedAlone: a dispatch by anyone but the requester, which `ProtocolStranded` covers.
- ProtocolLogs.LogsWalkTheTable: `updated_at` and event timestamps; a retry's creation appears as any other.
- Sweeps.SweepsAreInvisible: one clock reading serves a whole request, except for the creation stamp.
- AuditChain.VerifyChain: the canonical JSON text under the hash is part of the injective digest; time zones are normalized beforehand.
- AuditLog.Table.Write: reading the tip and appending are one step; `AuditWriters` takes them apart.
- AuditLog.Table.PublishAnchor: the signature and the receipt.
- AuditLog.Table.ListAuditEvents: which organization or workflow a caller may see, and the text of a cursor.
- AuditLog.Table.ListPage: which subjects are in scope is an arbitrary predicate on entries.
- DefinitionDiff.DiffGeneric: values are not shortened to four kilobytes, paths are sequences of keys rather than text, NaN is not among the numbers, and node ids are strings.
- DefinitionDiff.DiffObjects: the same.
- DefinitionDiff.DiffArrays: the same.
- DefinitionHash.HashAgreesIff: negative zero is zero.
- Redaction.ScrubbedIsClean: the condition is sufficient; `RedactionLists` has the exact one.
- ScopePattern.PreFilterIsExact: LIKE is case-sensitive, as in section 8.5 of ISO/IEC 9075-2; `ScopeFolding` has the other case.
- TableCopy.Migration.Begin: the checkpoint's format version.
- TableCopy.Migration.CopyAllTables: dry runs, schema migration, dialect checks, and a source that changes.
- JsonPointer.ParsePrint: array indexes among the segments print like their decimal text.
- Handles.BindingIsInjective: UTF-8 encoding of the preimage.
- The n8n client, HTTP, MCP, CLI and logging layers are plumbing around these calls.
- The registry loader and its rules, overlays, metrics, notifications and identity are field-by-field checks.
- Operation listing pages by ULID order, which depends on identifiers agreeing with creation time.
