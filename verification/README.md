# Sovereign Founder OS: crash, replay and boundary proofs

A Dafny model of the parts of the repository whose promises are about *every*
run: the local workspace with its audit-first commits and durable approved
sends, the checkpointed workflow runner, the one-use authority store and the
capability checks in front of it, the verified executor and its journal, the
signed ledger, cache and admission store, and the strict input boundary.

## What is modelled, and how

**Workspace.** `WorkspaceOps` gives, for every operation of the store, the list
of its durable writes in order and its result. A crash may follow any write, so
an interrupted operation is a prefix of that list; a run is any list of
operations, each interrupted anywhere or not at all. `WorkspaceStore.Store` is
the imperative store: its methods change the ledger, the vault, the outbox, the
records and the checkpoints one write at a time under a write budget, and are
proved to leave exactly the files the plan describes, cut at the crash.
`WorkspaceInvariant` states what holds between any two writes; `WorkspaceSafety`
and `WorkspaceOpSafety` prove it for every write of every operation;
`WorkspaceFrame` bounds what an operation may change; `WorkspaceRuns`,
`WorkspaceHealing`, `WorkspaceRejection` and `WorkspaceWarnings` draw the
conclusions about runs and about what the self-audit (`Integrity`) reports of
interruptions, `WorkspaceEffects` and `WorkspaceContents` about when an operation
succeeds, why it fails and what it leaves, field by field, and `ExportBundle`
about exported bundles.

**Authority.** `AuthorityRuns` is a transition system of any number of validator
processes over one shared store, with a claim cut at the temporary file, the
link and the read of an existing record, purges that see a record first and
remove its name later, restarts and a clock. `Authority` is the store as a
class, `Capability` the issuer, the owner's approval and the validator's checks,
and `CapabilityValidator` the validator's replay sets with the durable claims.
`AuthorityLink` shows the class's claims to be a run of the transition system.

**Execution.** `ExecutionJournal` reads a journal text as the source does;
`Executor` performs an execution act by act, every journal byte being one act,
so that a stop may fall inside a line.

**Agreement with something simpler.** `AuditLedger`, `CompiledCache`,
`Admission`, `Workflow`, `ModelGateway`, `Effects`, and for the boundary
`JsonPointer`, `InputSchema`, `Grants` and `Compose`.

Conventions. Digests, signatures and version 5 UUIDs are symbols of what they
are made from: equal digests have equal preimages, no event body hashes to the
genesis value, and an object that verifies under a key was made by its holder.
Times, UUIDs, the date of a message, policy verdicts, what the kernel chain, a
model provider, the compiler or the guest answers, and the answers of the file
system are inputs. A rename or a hard link is one atomic durable step. UUIDs of
one kind are fresh within their kind. A UUID in a text is shown as a decimal
number. Text is a sequence of characters; byte limits use its UTF-8 length.

## Where the code and its comments differ

- `crates/authority/src/lib.rs:173-176` says that purging can never re-enable
  replay of a still-valid authority. A validator reads the clock before it
  links its claim, so a purge that runs in between can remove the record of a
  token which that validator then links again: `UnguardedPurgesReuse` gives two
  uses for every token. `PurgedTokenReusableExactly` says when: after a purge a
  second use can follow if and only if the uses so far and the claims still live
  are two or more (`ExpiredTokenUsesExactly`: the most uses that can be reached
  is their sum). `RemovalIsHarmlessExactly` turns this into the exact guard of a
  removal, and `GuardedTokensAreOneUse` into at most one use of each token over
  whole runs. For a caller, `LagIsExact`: if no validator links a token `bound`
  or more seconds after it read the clock, handing `purge_expired` a time that
  lags the clock by `bound - 1` seconds or more keeps each token one-use, and no
  smaller lag does. Approval and idempotency records carry the token's expiry,
  so for them the bound across processes is one use per record, and within one
  process one use between its restarts.
- `apps/cli/src/workspace/send_workflow.rs:9-11` calls the recomposed message
  deterministic over the same state; it also contains the current date
  (`apps/cli/src/workspace/compose.rs:121`), which is an input here.
  `SameMessageExactly`: two messages over one state are equal if and only if
  their dates are. The other proofs do not need them to be equal.
- `apps/cli/src/workspace/compose.rs:144-145` keeps a name bare "when it is a
  safe atom", and counts a blank as safe. A reader by section 3.2.2 of RFC 5322
  takes blanks at the ends of a bare name as folding white space and a run of
  them as one, so a bare name reads back unchanged exactly if it has neither
  (`MailboxRoundTrip`); a name of one blank reads as no name.
- `apps/cli/src/workspace/reporting.rs:237-244` says that retrying heals an
  interrupted operation. `CompletedIsCleanExactly` says when: a completed
  operation leaves a clean audit exactly when no torn event of another kind
  trails on its resource. Retrying the same operation heals (`RetryHeals`).
  After an approval interrupted inside its commit, every completed operation
  leaves a clean audit except the rejection of that approval
  (`InterruptedApprovalHealsExactly`); that one always succeeds and leaves the
  warning and the orphan message (`RejectLeavesTheWarning`), and such a run
  exists from an empty workspace (`TheWarningIsReachable`).
- `crates/artifact/src/schema.rs:244-253` shows a root mismatch as `/`, which is
  also the pointer of a field with the empty name (`RootLooksLikeTheEmptyField`).
  These two are the only places shown alike (`ShownAlikeExactly`), and a shown
  path reads back as its place exactly if that is not the root
  (`ShownReadsBackExactly`). Under a declared schema the reason tells the two
  apart: `/` is the root unless the field is unknown (`ReasonTellsTheRoot`).
- `crates/workflow/src/lib.rs:236-237` lets a step recognize its effect by its
  idempotency key. Steps of two workflows can share one (`KeysCanCollide`),
  exactly if one workflow id continues the other by a NUL and an index, and then
  ends or has another NUL (`KeysCollideExactly`); steps of one workflow never do
  (`KeyFixesStepOfWorkflow`), nor those of ids without a NUL
  (`NulFreeNestsNothing`).

## Model

| member | source | states |
|---|---|---|
| WorkspaceRuns.EveryReachableStateIsSound | apps/cli/src/workspace/store.rs:82-96 | after any run, crashed at any durable write, the chain verifies, the self-audit has no critical finding, documents and approvals are in step, every message has an approval the owner tried to grant, and a revoked document has no message |
| WorkspaceRuns.CheckpointedSendIsFinal | apps/cli/src/workspace/send_workflow.rs:1-22 | once the execute receipt is checkpointed, later runs and crashes never execute that send again, neither writing its files nor depending on or failing in the kernel chain, the record still hashes to the receipt's output, the message to the record until a revocation starts, and the committed evidence is that record |
| WorkspaceRuns.DamageIsUnreachable | apps/cli/src/workspace/ops.rs:336-379 | in a reachable state no operation reports a corrupt ledger, a workflow divergence or "no outbox effect to revoke" |
| WorkspaceRuns.ApproveSucceedsExactly | apps/cli/src/workspace/ops.rs:296-333 | an approval is granted exactly when it is pending and its send is checkpointed or the kernel chain succeeds |
| WorkspaceRuns.RunKeepsInv | apps/cli/src/workspace/store.rs:82-96 | every run of interrupted operations keeps the invariant |
| WorkspaceRuns.CheckpointedRun | apps/cli/src/workspace/send_workflow.rs:34-59 | from a checkpointed send on, no operation writes its record or message again, and only a revocation of its document removes the message |
| WorkspaceRuns.RunKeepsSentBy | apps/cli/src/workspace/send_workflow.rs:138-184 | messages only ever appear for approvals that some operation tried to grant |
| WorkspaceHealing.CrashFreeRunsAreClean | apps/cli/src/workspace/reporting.rs:225-274 | a run without crashes, failing operations included, yields no finding at all |
| WorkspaceHealing.RetryHeals | apps/cli/src/workspace/reporting.rs:225-235 | from a clean audit, an operation interrupted any number of times anywhere and then completed leaves a clean audit |
| WorkspaceHealing.CompletedIsCleanExactly | apps/cli/src/workspace/reporting.rs:236-274 | a completed operation leaves a clean audit if and only if no torn event of another kind trails on its resource |
| WorkspaceRejection.RejectLeavesTheWarning | apps/cli/src/workspace/ops.rs:296-333 | an approval interrupted between the two saves of its commit and then rejected: the rejection succeeds, the tail warning and the orphan message stay |
| WorkspaceRejection.InterruptedApprovalHealsExactly | apps/cli/src/workspace/reporting.rs:236-274 | from a clean audit, after an approval interrupted inside its commit, a completed operation leaves a clean audit if and only if it is not the rejection of that approval |
| WorkspaceRejection.TheWarningIsReachable | apps/cli/src/workspace/send_workflow.rs:65-119 | under every policy that lets an offer be sent, a run from an empty workspace ends in an approval interrupted inside its commit and its completed rejection, with a finding left |
| WorkspaceHealing.InterruptionTearsOnlyItself | apps/cli/src/workspace/store.rs:82-96 | an interruption can only tear events of its own operation |
| WorkspaceHealing.FailureKeepsState | apps/cli/src/workspace/ops.rs:11-405 | a failed operation signs nothing and leaves the workspace as it was |
| WorkspaceEffects.OperationSucceedsExactly | apps/cli/src/workspace/ops.rs:11-405 | on a reachable workspace an operation succeeds exactly under conditions its owner can see: policy, limits, the document's status, a pending approval, and for a grant a checkpointed send or a kernel chain that succeeds |
| WorkspaceEffects.CompletedMovesExactly | apps/cli/src/workspace/ops.rs:11-405 | a completed operation moves exactly its own document to its next status and signs events on that resource only |
| WorkspaceEffects.MessagesAreNeverOverwritten | apps/cli/src/workspace/send_workflow.rs:160-169 | whatever was interrupted before, no operation writes a message over an existing one |
| WorkspaceContents.CompletedLeavesExactly | apps/cli/src/workspace/ops.rs:11-405 | what every completed operation leaves: its own change of the workspace and no other, its own events in order with their ids, time, payload and signature, its own files, and of a grant the record of what the kernel chain returned, both receipts, and the message of its document |
| WorkspaceContents.GrantedMessageIsAddressed | apps/cli/src/workspace/send_workflow.rs:138-184 | the message a new grant leaves is the one composed for the approved document and for the first customer with the id that document names, or for nobody if there is none, and a reader finds that customer's name and address on it |
| WorkspaceContents.FailuresAreTrue | apps/cli/src/workspace/ops.rs:11-405 | every failure names what an owner can see is missing, refused or in another state, and leaves all files as they were but for the orphan message of an approval whose kernel chain failed |
| WorkspaceContents.SendKeysFixSteps | crates/workflow/src/lib.rs:236-244 | two steps of any two sends share their idempotency key if and only if they are the same step of the same approval |
| WorkspaceWarnings.InterruptionIsReported | apps/cli/src/workspace/reporting.rs:236-265 | a new customer, a grant, a revocation or a confirmation that is interrupted between the two saves of its commit is reported, whatever was torn before, by one warning on its own resource and nothing else |
| WorkspaceWarnings.InterruptionIsReportedExactly | apps/cli/src/workspace/reporting.rs:225-274 | from a clean audit, an operation interrupted anywhere is reported if and only if it is one of these four and the crash fell between the two saves |
| WorkspaceOpSafety.OpSafe | apps/cli/src/workspace/ops.rs:11-405 | the invariant holds before, between and after the durable writes of every operation |
| WorkspaceOpSafety.RevokeFindsItsReceipt | apps/cli/src/workspace/ops.rs:347-360 | a document awaiting delivery has a receipt, and it names that document's own message |
| WorkspaceOpSafety.RevokeSafe | apps/cli/src/workspace/ops.rs:336-379 | a revocation is safe at every write and never lacks its outbox effect |
| WorkspaceOpSafety.RejectOpSafe | apps/cli/src/workspace/ops.rs:296-333 | a rejection is safe at every write, also after an interrupted approval of the same request |
| WorkspaceOpSafety.RequestSendSafe | apps/cli/src/workspace/ops.rs:237-287 | a submission gives the document its only approval, and is safe at every write |
| WorkspaceSafety.SendSafe | apps/cli/src/workspace/send_workflow.rs:34-59 | a send started or resumed at any receipt is safe at every write, fails only when its first step must run and the kernel chain fails, and otherwise commits the grant with the saved record as evidence |
| WorkspaceSafety.SendDoesNotDiverge | crates/workflow/src/lib.rs:153-169 | the receipts of a send never contradict its two declared steps |
| WorkspaceSafety.CommitSafe | apps/cli/src/workspace/store.rs:89-96 | the ledger write of a commit is safe by itself, and then the state write |
| WorkspaceSafety.CommitDecisionSafe | apps/cli/src/workspace/send_workflow.rs:65-119 | the commit of a checkpointed send signs the grant events in order and makes document and approval granted together |
| WorkspaceFrame.PlanAllowed | apps/cli/src/workspace/ops.rs:11-405 | every durable write of every operation is one of those it may make: chain extensions by its own events, workspaces that keep approvals and advance statuses, and the files of its own send |
| WorkspaceFrame.InterruptedLater | apps/cli/src/workspace/ops.rs:11-405 | what an operation may have changed wherever it was interrupted |
| WorkspaceInvariant.DecisionKeepsLifecycle | apps/cli/src/workspace/ops.rs:296-333 | a decision moves one approval and its document together and changes no other status |
| WorkspaceInvariant.RequestKeepsLifecycle | apps/cli/src/workspace/ops.rs:237-287 | a submission keeps at most one approval per document |
| WorkspaceInvariant.SettleSafe | apps/cli/src/workspace/ops.rs:336-405 | revoking and confirming change granted documents only |
| Integrity.FindingsMeaning | apps/cli/src/workspace/reporting.rs:104-285 | no critical finding means exactly a verified chain that backs the state, and no finding also an untorn tail |
| Integrity.CriticalFindingsMeaning | apps/cli/src/workspace/reporting.rs:131-221 | the cross-checks report nothing exactly when every customer, granted, revoked or delivered document and claimed outbox file has its event |
| Integrity.CriticalFindingsExactly | apps/cli/src/workspace/reporting.rs:131-221 | a critical finding is reported if and only if it names a customer, a document or an approval of the workspace whose state no event of the chain backs |
| Integrity.IntegrityCheck | apps/cli/src/workspace/reporting.rs:104-285 | the loops report exactly these findings, and `ok` and `chain_verified` mean what they say |
| Integrity.TailIsTorn | apps/cli/src/workspace/reporting.rs:236-265 | the backward scan over the events of the last resource finds a torn event exactly when there is one |
| WorkspaceStore.RanIsInterrupted | apps/cli/src/workspace/store.rs:82-96 | what a store method leaves is the operation interrupted where its budget ended, and the completed operation when it answered |
| WorkspaceStore.RanThen | apps/cli/src/workspace/store.rs:89-96 | two steps in a row, the first done, are one plan cut at the same crash |
| WorkspaceStore.Store.AppendEvents | apps/cli/src/workspace/store.rs:113-145 | all events of an operation are appended to the verified chain and saved in one write, or nothing is |
| WorkspaceStore.Store.Commit | apps/cli/src/workspace/store.rs:89-96 | the ledger is saved before the workspace |
| WorkspaceStore.Store.SetVenture | apps/cli/src/workspace/ops.rs:11-40 | writes and result of naming the venture |
| WorkspaceStore.Store.AddCustomer | apps/cli/src/workspace/ops.rs:42-93 | writes and result of adding a customer, with its limit |
| WorkspaceStore.Store.DraftAssistant | apps/cli/src/workspace/ops.rs:95-176 | writes and result of a model draft and its disclosure entry |
| WorkspaceStore.Store.CreateDocument | apps/cli/src/workspace/ops.rs:178-235 | writes and result of drafting a document, with its guards in order |
| WorkspaceStore.Store.RequestSend | apps/cli/src/workspace/ops.rs:237-287 | writes and result of submitting a draft |
| WorkspaceStore.Store.Approve | apps/cli/src/workspace/ops.rs:296-333 | writes and result of granting |
| WorkspaceStore.Store.Reject | apps/cli/src/workspace/ops.rs:296-333 | writes and result of rejecting |
| WorkspaceStore.Store.RevokeDelivery | apps/cli/src/workspace/ops.rs:336-379 | the message is removed before the revocation is committed |
| WorkspaceStore.Store.ConfirmDelivery | apps/cli/src/workspace/ops.rs:387-405 | writes and result of confirming a delivery |
| WorkspaceStore.Store.Export | apps/cli/src/workspace/reporting.rs:289-313 | an export appends one event, changes nothing else, and returns the bundle of what was stored before it |
| WorkspaceStore.Store.RunDurableSend | apps/cli/src/workspace/send_workflow.rs:34-59 | each of the two steps runs only when its receipt is missing, and its receipt is saved after it |
| WorkspaceStore.Store.ExecuteSendStep | apps/cli/src/workspace/send_workflow.rs:138-184 | an orphan message is removed, then the message and then the record are written |
| WorkspaceStore.Store.CommitDecisionStep | apps/cli/src/workspace/send_workflow.rs:194-204 | the saved record is committed, and a decided approval is left alone |
| ExportBundle.VerifyExportMeaning | apps/cli/src/workspace/verify.rs:12-119 | a bundle passes exactly when its format is right and its history is empty or one device's verified chain |
| ExportBundle.VerdictMeaning | apps/cli/src/workspace/verify.rs:12-119 | what each field of the verdict says: the format, the whole history under its first key, every event on the named device, and all of them together |
| ExportBundle.ReachableExportVerifies | apps/cli/src/workspace/reporting.rs:289-313 | the export of every reachable store passes that check and carries the whole history |
| ExportBundle.PassingBundleIsTheHistory | apps/cli/src/workspace/verify.rs:38-72 | a passing bundle of the device that ends in the store's last hash holds the store's events |
| AuditLedger.FaultFreeIffVerified | crates/audit-ledger/src/lib.rs:135-165 | no fault is found exactly when every event is linked, hashed and signed under the trusted key |
| AuditLedger.PrefixFaultPersists | crates/audit-ledger/src/lib.rs:135-165 | a fault in a prefix is the fault of the whole chain |
| AuditLedger.FirstFaultIsNamed | crates/audit-ledger/src/lib.rs:135-165 | a chain is refused for its first event that is not in order, by its id and for what is wrong with it |
| AuditLedger.AppendAllExtends | crates/audit-ledger/src/lib.rs:78-133 | appending keeps the chain verified and adds exactly the given contents, with consecutive event ids at the given time |
| AuditLedger.LastHashFixesHistory | crates/audit-ledger/src/lib.rs:71-77 | two chains that verify under one key and end in one hash are equal |
| AuditLedger.AuditLedger.Append | crates/audit-ledger/src/lib.rs:78-133 | another device's event is refused, otherwise the event is linked, hashed and signed |
| AuditLedger.AuditLedger.VerifyChain | crates/audit-ledger/src/lib.rs:135-165 | the loop with its running hash reports the recursive verdict |
| AuditLedger.AuditLedger.Trusting | crates/audit-ledger/src/lib.rs:55-66 | stored events under the caller's key |
| Workflow.ResumeEqualsUninterrupted | crates/workflow/src/lib.rs:153-207 | any interrupted or failing attempts over the same or shorter definitions, then one full run, give the receipts of one uninterrupted run and execute exactly the missing steps |
| Workflow.AttemptOnlyAppends | crates/workflow/src/lib.rs:171-207 | an attempt only appends receipts in place, and a finished one executed exactly the missing suffix |
| Workflow.AttemptKeepsEveryReceipt | crates/workflow/src/lib.rs:153-207 | one attempt exactly, whatever its outcome: every step that succeeds on the receipts before it and whose receipt fits the budget is stored, up to the first failure; the caller is told that failure, or which steps ran; done is set exactly at the end; without progress nothing is written |
| Workflow.NoStepRunsTwice | crates/workflow/src/lib.rs:171-195 | a step that succeeded in an attempt and whose receipt fitted its budget keeps it through all later attempts, and every later attempt is the same whatever that step would do |
| Workflow.MismatchIsExact | crates/workflow/src/lib.rs:134-151 | a run is refused for another workflow's checkpoint exactly when there is one, and leaves it as it is |
| Workflow.DivergenceIsExact | crates/workflow/src/lib.rs:155-169 | an attempt is refused exactly when a completed step is missing or renamed, for the one that is the case, and then stores nothing |
| Workflow.KeysCollideExactly | crates/workflow/src/lib.rs:238-244 | two workflows have steps that share a key if and only if one id continues the other by a NUL and an index, and then ends or has another NUL |
| Workflow.KeyFixesStep | crates/workflow/src/lib.rs:238-244 | where neither id so nests the other, keys are equal only for the same workflow, index and name |
| Workflow.KeyFixesStepOfWorkflow | crates/workflow/src/lib.rs:238-244 | within one workflow, whatever its id holds, keys are equal only for the same index and name |
| Workflow.NulFreeNestsNothing | crates/workflow/src/lib.rs:238-244 | an id without a NUL nests no other, and no id nests itself |
| Workflow.KeysCanCollide | crates/workflow/src/lib.rs:238-244 | two named steps of two workflows that share a key |
| Workflow.WorkflowRunner.Execute | crates/workflow/src/lib.rs:153-207 | the method with its loop stores and returns what the specification says |
| Workflow.WorkflowRunner.RunRemaining | crates/workflow/src/lib.rs:171-195 | the loop saves a receipt after each step and stops at the first failure or crash |
| Workflow.WorkflowRunner.CheckDefinition | crates/workflow/src/lib.rs:155-169 | the loop over the receipts finds the first divergence |
| Workflow.WorkflowRunner.LoadCheckpoint | crates/workflow/src/lib.rs:134-151 | a stored checkpoint of another workflow is refused |
| Workflow.WorkflowRunner.Persist | crates/workflow/src/lib.rs:209-234 | the checkpoint is replaced as a whole or not at all |
| AuthorityRuns.OneUsePerRecord | crates/authority/src/lib.rs:202-246 | in every interleaving links balance removals and presence, and a token, key or approval is used at most once per published record |
| AuthorityRuns.OneUsePerEpoch | crates/capability/src/v2.rs:525-536 | one process uses each token, key and approval at most once between its restarts, whatever is purged |
| AuthorityRuns.FinishedMayStartExactly | crates/capability/src/v2.rs:765-774 | a finished authorization keeps its process from starting exactly the tokens that share their id, key or approval with it |
| AuthorityRuns.LinkPublishesExactly | crates/authority/src/lib.rs:202-246 | a link publishes exactly one record under a free name, with the token's expiry and under a key its fingerprint; a collected temporary is refused, and a taken name has to be read |
| AuthorityRuns.RestartedMayStartExactly | crates/capability/src/v2.rs:537-558 | a restarted process may start every token inside its window |
| AuthorityRuns.ExpiredTokenUsesExactly | crates/authority/src/lib.rs:173-200 | the uses of an expired token can still reach a number if and only if it is at most the uses so far plus the live claims |
| AuthorityRuns.PurgedTokenReusableExactly | crates/authority/src/lib.rs:173-200 | after its record was purged a token can be used twice if and only if its uses and live claims are two or more |
| AuthorityRuns.RemovalIsHarmlessExactly | crates/authority/src/lib.rs:177-200 | a removal leaves the token one-use for ever if and only if its uses and live claims are at most one at that moment |
| AuthorityRuns.GuardedTokensAreOneUse | crates/authority/src/lib.rs:173-200 | if every removal of a token's record is so guarded, each token is used at most once in every run |
| AuthorityRuns.LaggedTokensAreOneUse | crates/authority/src/lib.rs:177-200 | if purges lag the clock by as much as a validator takes from reading it to linking, each token is used at most once in every run |
| AuthorityRuns.LagIsExact | crates/authority/src/lib.rs:177-200 | with tokens linked less than `bound` after the clock was read, a lag keeps a token one-use if and only if it is at least `bound - 1` |
| AuthorityRuns.UnguardedPurgesReuse | crates/authority/src/lib.rs:173-200 | without the guard every token can be used twice by two validators |
| AuthorityRuns.TakeKeepsInv | crates/authority/src/lib.rs:177-246 | every step keeps the balance of links, the payment of uses and the expiry of removed tokens |
| Authority.PurgeKeepsRefusals | crates/authority/src/lib.rs:177-200 | a purge frees exactly the names of readable expired records |
| Authority.AuthorityStore.Claim | crates/authority/src/lib.rs:202-246 | a free name is published, an existing one is never replaced and decides the error |
| Authority.AuthorityStore.ConsumeToken | crates/authority/src/lib.rs:95-116 | a token is consumed exactly when its name was free |
| Authority.AuthorityStore.ConsumeApproval | crates/authority/src/lib.rs:118-138 | an approval is consumed exactly when its name was free |
| Authority.AuthorityStore.BindIdempotency | crates/authority/src/lib.rs:143-171 | a bound key is a replay with its fingerprint and a conflict with another |
| Authority.AuthorityStore.PurgeDirectory | crates/authority/src/lib.rs:177-198 | the loop over one directory removes exactly the expired records and counts them |
| Authority.AuthorityStore.PurgeExpired | crates/authority/src/lib.rs:177-200 | all three directories keep exactly the unexpired records, and the count is right |
| AuthorityLink.ClaimsAreARun | crates/capability/src/v2.rs:739-774 | what the validator's three claims publish, remember or report is a run of one process that nothing interrupts |
| AuthorityLink.AcceptedMayStart | crates/capability/src/v2.rs:602-737 | a token that all checks accept may start its claims in the transition system |
| AuthorityLink.IssuedMayStartExactly | crates/capability/src/v2.rs:602-737 | an issued token, presented with its own request, is accepted if and only if it may start its claims in the transition system while its decision is recent and its key and approval hold |
| Capability.IssuedTokenAcceptedExactly | crates/capability/src/v2.rs:400-513 | a token issued for a request, presented with that request and approval, is accepted exactly for the lifetime that was asked for, while its decision, key and approval hold, and once |
| Capability.AcceptedTokenIsInOrder | crates/capability/src/v2.rs:602-775 | an accepted token was issued for this decision, party and invocation, with evaluated ≤ approved ≤ issued ≤ now < both expiries |
| Capability.AcceptedExactly | crates/capability/src/v2.rs:602-737 | acceptance of any token is exactly a trusted signature over claims that bind this invocation, decision and approval inside their windows, unused in this process |
| Capability.IssuesExactly | crates/capability/src/v2.rs:400-513 | a token is issued exactly for a supported request with a recent allowing decision about it, the approval that needs, and a lifetime in range; and it says exactly what was asked for, its expiry being its time plus that lifetime |
| Capability.RefusalsAreTrue | crates/capability/src/v2.rs:602-737 | every refusal names something that really is wrong with the token, its context, its approval or its earlier use |
| Capability.ApprovalRefusalsAreTrue | crates/capability/src/approval.rs:173-304 | every refusal of an approval names something that really is wrong with it |
| Capability.ApprovesExactly | crates/capability/src/approval.rs:96-158 | an approval is signed exactly for a proper approver, lifetime and invocation, and says exactly who approved what, when and until when |
| Capability.VerifiesExactly | crates/capability/src/approval.rs:173-304 | an approval verifies exactly under an accepted key over claims that bind this invocation and decision in their window |
| Capability.IdentifierMeaning | crates/capability/src/v2.rs:1111-1120 | an identifier is not empty, has no blank at its ends, no control character and at most 512 bytes |
| Capability.FingerprintExactly | crates/capability/src/v2.rs:814-855 | two fingerprints are equal if and only if audience, party, tool, digests, profile, resource, decision, risk and backend are |
| Capability.ApprovalVerifiesExactly | crates/capability/src/approval.rs:96-304 | an owner's approval verifies exactly from its time to its expiry, after the decision was evaluated, while the key is accepted |
| Capability.ApprovalRulesMeaning | crates/capability/src/approval.rs:211-304 | the ordered checks pass exactly when every field binds the context |
| Capability.PolicyRulesMeaning | crates/capability/src/v2.rs:895-976 | the ordered checks pass exactly when the decision is about this audience, party, key and invocation |
| Capability.FingerprintFixesInvocation | crates/capability/src/v2.rs:814-855 | equal fingerprints mean the same invocation under the same decision |
| Identity.VerifySignature | crates/identity/src/trust.rs:123-178 | a signature is accepted exactly under a listed, unrevoked key of the expected issuer inside its validity |
| Identity.AcceptsExactly | crates/identity/src/trust.rs:123-178 | acceptance spelled out: a listed key of the issuer, not revoked, from its start to before its end |
| Identity.SignatureRefusalsAreTrue | crates/identity/src/trust.rs:123-178 | every refusal names what is wrong with the envelope or its key |
| CapabilityValidator.SecondUseRefused | crates/capability/src/v2.rs:681-737 | after an authorization its token, key and approval are refused for good in that process |
| CapabilityValidator.RemembersExactly | crates/capability/src/v2.rs:765-774 | an authorization adds its own token, key and approval to the memory and nothing else |
| CapabilityValidator.CapabilityValidator.ClaimDurably | crates/capability/src/v2.rs:739-763 | token, key and approval are claimed in this order, a refusal leaves the earlier ones burnt and says which was refused and why |
| CapabilityValidator.CapabilityValidator.AuthorizeAndConsumeApproved | crates/capability/src/v2.rs:602-775 | authorized exactly when all checks pass and all durable claims are published; memory changes only then, and the store has exactly the claims up to the first one refused |
| ExecutionJournal.TornLogReadsExactly | crates/execution/src/lib.rs:209-261 | a log with a torn last line reads as its complete records, or one more when only the newline is missing |
| ExecutionJournal.CompleteLogReadsExactly | crates/execution/src/lib.rs:217-261 | a complete log reads as its records |
| ExecutionJournal.IntentMeaning | crates/execution/src/lib.rs:217-261 | the intent read is that of the last intent record |
| ExecutionJournal.StateMeaning | crates/execution/src/lib.rs:217-261 | the state read is what the last record that decides it says, a start counting only after an intent |
| ExecutionJournal.CarriageReturnsDoNotMatter | crates/execution/src/lib.rs:217-261 | a log whose lines end in a carriage return and a newline reads the same |
| ExecutionJournal.ReadExecution | crates/execution/src/lib.rs:217-261 | the loop over the lines computes that reading, and refuses an oversized file |
| Executor.EveryCrashIsReportedHonestly | crates/sandbox/src/lib.rs:273-358 | for every stop, torn line included: a started guest means a consumed token and durable intent and started records; the journal reads as the records written or one more, with this execution's intent; a completion only with the one result the guest returned, a failure only with the one failure it ended in, a denial or no verdict on a start only if the guest never ran |
| Executor.FinishedIsRecorded | crates/sandbox/src/lib.rs:273-358 | an execution that is not interrupted does nothing before its checks pass, and otherwise leaves the denial or the guest's whole answer in the journal |
| Executor.ResultHashInjective | crates/sandbox/src/lib.rs:361-367 | two results have one digest if and only if exit code and fuel are the same |
| Executor.CodeFixesFailure | crates/sandbox/src/lib.rs:83-101 | a stable code tells which failure it stands for |
| Executor.EveryStopIsAStage | crates/sandbox/src/lib.rs:299-356 | wherever an execution stops it is at one of its stages |
| Executor.StableCode | crates/sandbox/src/lib.rs:83-101 | no failure of the guest has the code of a denial |
| Executor.VerifiedExecutor.AppendLine | crates/execution/src/lib.rs:209-215 | a record is written byte by byte, ending in a newline |
| Executor.VerifiedExecutor.Begin | crates/execution/src/lib.rs:130-145 | the file is created and the intent written before anything else |
| Executor.VerifiedExecutor.RunGuest | crates/sandbox/src/lib.rs:316-356 | consume, record the start, run the guest, record the verdict, in this order |
| Executor.VerifiedExecutor.Execute | crates/sandbox/src/lib.rs:273-358 | the method stops where its budget ends; a result is the guest's own, and an error is that of the check that failed, with the guest never started, or the guest's own failure |
| CompiledCache.CacheRefinesCompiling | crates/sandbox/src/wasm.rs:299-323 | under any changes of the cache files and crashes between its writes, every execution gets what compiling its source gives |
| CompiledCache.LookupIsCompiled | crates/sandbox/src/compiled_cache.rs:92-114 | a lookup returns the compiled requested source or misses |
| CompiledCache.StoredEntryIsFound | crates/sandbox/src/compiled_cache.rs:116-148 | an entry left alone is a hit |
| CompiledCache.VerifiesExactly | crates/sandbox/src/compiled_cache.rs:150-207 | an entry is trusted exactly under the owner's own record of this engine, this component and these bytes |
| CompiledCache.QuarantinesExactly | crates/sandbox/src/compiled_cache.rs:92-114 | a lookup moves aside exactly its own entry, when both files are there and it is not trusted |
| CompiledCache.EntriesAreSeparate | crates/sandbox/src/compiled_cache.rs:209-214 | storing or looking up one component changes no lookup of another |
| CompiledCache.StoresInOrder | crates/sandbox/src/compiled_cache.rs:116-148 | a new record is never there without the blob it is about, and a blob that is too large leaves nothing |
| CompiledCache.CompiledCache.FindModule | crates/sandbox/src/compiled_cache.rs:92-114 | a missing file is a plain miss, a failing entry is moved aside |
| CompiledCache.CompiledCache.StoreModule | crates/sandbox/src/compiled_cache.rs:116-148 | the blob is written before its signed record |
| CompiledCache.CompiledCache.QuarantineEntry | crates/sandbox/src/compiled_cache.rs:216-221 | both files of an entry are moved aside |
| CompiledCache.CompiledCache.LoadOrCompile | crates/sandbox/src/wasm.rs:299-323 | a hit or a compilation, and in an honest cache the compiled source |
| Admission.LoadAfterAdmit | crates/artifact/src/admission.rs:134-207 | loading an admitted artifact gives it back, with the record of that admission, exactly while its key is accepted and its time has come |
| Admission.LoadReturnsTheArtifact | crates/artifact/src/admission.rs:212-328 | whatever the files hold, a successful load returns the artifact with those digests under a trusted record |
| Admission.LoadsExactly | crates/artifact/src/admission.rs:212-328 | a load succeeds exactly under an accepted key for a record of these digests that is admitted, grants no capability and is in force, over bytes that rehash and a manifest about them with the recorded profile; it returns those bytes and that record |
| Admission.LoadRefusalsAreTrue | crates/artifact/src/admission.rs:212-328 | every refusal of a load names something that really is wrong |
| Admission.EveryPublishedRecordLoads | crates/artifact/src/admission.rs:134-328 | after any admissions from an empty store, each interrupted anywhere, every published record has its object and manifest and loads exactly for its issuer while its key is accepted, from its time on |
| Admission.EveryCrashPointIsComplete | crates/artifact/src/admission.rs:134-207 | at every crash point a published record has its object and manifest, rehashing to their names |
| Admission.InterruptedAdmitIsRetryable | crates/artifact/src/admission.rs:134-207 | an interrupted admission can be retried exactly until its record is published |
| Admission.AdmitLeaves | crates/artifact/src/admission.rs:134-207 | the files after a completed admission |
| Admission.AdmitsExactly | crates/artifact/src/admission.rs:134-207 | an artifact is admitted exactly when no record is published for it and what is there under its names rehashes; each refusal says which of these is not so |
| Admission.ArtifactStore.Admit | crates/artifact/src/admission.rs:134-207 | object, manifest and record are written in this order, cut at the crash |
| Admission.ArtifactStore.StoreObject | crates/artifact/src/admission.rs:330-349 | an existing object is reused only after it rehashes |
| Admission.ArtifactStore.StoreManifest | crates/artifact/src/admission.rs:351-371 | an existing manifest is reused only after it rehashes |
| JsonPointer.ValidateJsonPointer | crates/artifact/src/manifest.rs:613-636 | accepted exactly when short enough and valid by section 3 of RFC 6901 |
| JsonPointer.ScanToken | crates/artifact/src/manifest.rs:619-634 | the index loop accepts exactly well-escaped tokens |
| JsonPointer.UnescapeInvertsEscape | crates/artifact/src/schema.rs:255-258 | unescaping by section 4 of RFC 6901 inverts the escaping of every name |
| JsonPointer.RenderedPointer | crates/artifact/src/schema.rs:255-258 | a path built from any names is a valid pointer and reads back as those names |
| JsonPointer.PointersAreRenderedPaths | crates/artifact/src/manifest.rs:613-636 | a text is a valid pointer if and only if it renders the names it is read as |
| JsonPointer.FollowsIndexExactly | crates/artifact/src/invocation.rs:177-217 | a token leads into an array if and only if it is the decimal of an index |
| JsonPointer.RenderAppend | crates/artifact/src/schema.rs:255-258 | a child path renders one more token |
| InputSchema.ValidateDeclaration | crates/artifact/src/schema.rs:84-156 | limits and schema pass exactly when the limits are in range and every node is well declared, and a refusal says what some node or limit lacks |
| InputSchema.CheckNodes | crates/artifact/src/schema.rs:86-155 | the loop over an explicit stack reports what the recursive definition does |
| InputSchema.FirstFaultIsReported | crates/artifact/src/schema.rs:88-152 | of several faults of a node that of the first check is reported |
| InputSchema.NoFaultIffDeclared | crates/artifact/src/schema.rs:84-156 | no fault exactly when every node declares what it may: depth, property counts and names, declared required names, item and byte limits, safe and non-empty ranges |
| InputSchema.DeclarationFaultIsTrue | crates/artifact/src/schema.rs:84-156 | the fault that is reported is true of some node of the schema |
| InputSchema.DeclaredAcceptsSomething | crates/artifact/src/schema.rs:84-232 | every declared schema accepts some value |
| InputSchema.JsonDepth | crates/artifact/src/schema.rs:299-315 | the loop over an explicit stack computes the recursive depth |
| InputSchema.DepthIsLongestPath | crates/artifact/src/schema.rs:299-315 | the depth of a value is one more than the length of a longest path in it |
| InputSchema.AcceptedWithinLimits | crates/artifact/src/schema.rs:158-232 | a value accepted by a schema valid for some limits is no deeper than they allow |
| InputSchema.MismatchPathIsAPointer | crates/artifact/src/schema.rs:162-253 | the path of every mismatch is a valid pointer; followed in value and schema it leads to a value that the sub-schema there rejects for the reported reason, to a field its object's schema does not declare, or to a missing field it requires |
| InputSchema.MismatchTokens | crates/artifact/src/schema.rs:162-232 | the path of a mismatch is the given path and the tokens of that place |
| InputSchema.RejectedExactly | crates/artifact/src/schema.rs:162-232 | a value is rejected if and only if some place in it is rejected by the sub-schema there |
| InputSchema.ObjectReportsFirst | crates/artifact/src/schema.rs:163-191 | of an object that is not too large the first unknown field is reported, else the first missing one, else the mismatch of the first field that is rejected |
| InputSchema.ArrayReportsFirst | crates/artifact/src/schema.rs:192-206 | of an array that is not too long the mismatch of the first item that is rejected is reported |
| InputSchema.ShownAlikeExactly | crates/artifact/src/schema.rs:244-253 | two places are shown alike if and only if they are the same, or the root and the field with the empty name |
| InputSchema.ShownReadsBackExactly | crates/artifact/src/schema.rs:244-253 | a shown path reads back as the tokens of its place if and only if that is not the root |
| InputSchema.ReasonTellsTheRoot | crates/artifact/src/schema.rs:84-253 | for a value checked by a declared schema, a mismatch shown as a slash is at the root if and only if its reason is not an unknown field |
| InputSchema.RootLooksLikeTheEmptyField | crates/artifact/src/schema.rs:244-253 | a root mismatch is shown like an unknown field with the empty name |
| Grants.Prepare | crates/artifact/src/invocation.rs:98-100 | grants are accepted exactly when they match the rules one to one and each pointer yields its grant, and otherwise the reason is true |
| Grants.CollectGrants | crates/artifact/src/invocation.rs:162-175 | grants are collected exactly when their ids are distinct, and otherwise an id that is granted twice is named |
| Grants.PrepareGrants | crates/artifact/src/invocation.rs:177-224 | the loop accepts exactly matching grants, commits them in id order, and reports the first rule not met or the smallest unexpected id |
| Grants.RuleFaultIsTrue | crates/artifact/src/invocation.rs:177-217 | every error of a rule names what is missing of it |
| Grants.RuleMetMeaning | crates/artifact/src/invocation.rs:177-217 | a rule is met by the grant of exactly the non-empty string of at most 4096 bytes that its pointer leads to |
| Grants.CommitsExactly | crates/artifact/src/invocation.rs:177-224 | accepted grants are committed one by one in id order, each as the digest of the very resource granted, and the primary one's resource is given out |
| Grants.LessMeaning | crates/artifact/src/invocation.rs:219-223 | one id is before another if it is a proper prefix, or has the smaller character where they first differ |
| Grants.OrderDoesNotMatter | crates/artifact/src/invocation.rs:177-224 | the result depends neither on the order of the rules nor on that of the grants |
| Grants.SortSorts | crates/artifact/src/invocation.rs:222-223 | commitments come out in increasing id order |
| Grants.LeastId | crates/artifact/src/invocation.rs:219-221 | the unexpected grant that is reported has the smallest id |
| Grants.ValidateBindings | crates/artifact/src/manifest.rs:121-147 | rules are accepted exactly when each is well formed, ids are distinct and at most one is primary, and otherwise the reason is true |
| Grants.BindingIdsExactly | crates/artifact/src/manifest.rs:121-147 | a binding id is 1 to 128 ASCII letters, digits, underscores and hyphens |
| ModelGateway.Complete | crates/model/src/lib.rs:151-205 | the two passes choose the first successful eligible healthy provider, else the first degraded one, fail exactly when there is none or its output is too long, list every provider passed over, give up only after trying every eligible provider that is not down, and never call a cloud provider with red data |
| ModelGateway.RunPass | crates/model/src/lib.rs:158-203 | one pass stops at its first answer, with every failed call and no id twice in the skip list |
| ModelGateway.RecordSkip | crates/model/src/lib.rs:238-245 | an id is recorded once, with its first cause |
| Compose.MessageRoundTrip | apps/cli/src/workspace/compose.rs:92-140 | a reader that splits at the first empty line (section 2.1 of RFC 5322) finds exactly the printed headers, eight or nine, and the body's lines |
| Compose.MailboxRoundTrip | apps/cli/src/workspace/compose.rs:146-160 | a mailbox reads back, quotes removed (section 3.2.4 of RFC 5322), as the address and the name without line breaks; a bare name if and only if it has no blank at its ends and no two in a row |
| Compose.BareExactly | apps/cli/src/workspace/compose.rs:146-160 | a name is printed bare if and only if it is not empty and printable ASCII without the specials of section 3.2.3 of RFC 5322, and quoted otherwise |
| Compose.LineBreaksAreDropped | apps/cli/src/workspace/compose.rs:146-150 | a name loses exactly its line breaks |
| Compose.FieldsReadBack | apps/cli/src/workspace/compose.rs:92-167 | a reader recovers both names on that condition, the customer's own address without the blanks around it or the placeholder with its note, the subject, the date, the document's id and its lines without trailing carriage returns |
| Compose.SameMessageExactly | apps/cli/src/workspace/send_workflow.rs:6-11 | messages composed twice over the same state are equal if and only if their dates are |
| Compose.ComposeEmail | apps/cli/src/workspace/compose.rs:92-140 | the loop that appends to the message prints that text |
| Effects.RevocationInvertsNaming | crates/effects/src/lib.rs:155-176 | a path can be revoked exactly when some key and extension name it |
| Effects.NamesAreInjective | crates/effects/src/lib.rs:187-212 | a file name belongs to one key and one extension |
| Effects.SafeFileName | crates/effects/src/lib.rs:187-212 | an accepted name is one path component |
| Effects.NamesExactly | crates/effects/src/lib.rs:187-212 | a name is accepted exactly for 1 to 128 letters, digits, hyphens and underscores and an extension of 1 to 8 small letters |
| Effects.OutboxBroker.WriteWithExtension | crates/effects/src/lib.rs:118-147 | a write changes exactly the named file and its receipt describes the content; a refusal changes nothing and names its reason |
| Effects.OutboxBroker.Revoke | crates/effects/src/lib.rs:155-176 | a revocation removes exactly the named regular file |

## Left out

- Cryptography, COSE, Base64 and JSON encodings: library code, represented by the symbols described above; the canonical-form and size checks on encoded objects go with them.
- Wasmtime, the compile worker and the subprocess protocol: the compiler, the module format and the guest's answer are inputs.
- File permissions, symbolic links, temporary files and directory flushes: a rename or link is one atomic step; the authority store's temporaries are modelled because a purge may collect them.
- The stages inside the kernel chain of one send (`apps/cli/src/workspace/kernel_exec.rs:50-91`): their joint answer is an input of the operation; admission, approval, capability and execution are modelled in their own modules.
- Owner key material in the vault, the vault's own manifest and its encryption: the vault is the workspace value it protects.
- HTTP server, command line, demo, user interface, internationalisation, Command Center counts and guidance, document templates, text and email cleaning: they would only add easy members. Operations take already cleaned texts.
- Capability V1, the simulated executor and the rules inside the policy engine: policy verdicts are inputs.
- Several processes writing one workspace directory: the code does not claim to serialise them.
- The send's two workflow steps are called one after the other in `WorkspaceStore.Store.RunDurableSend`, where the source hands two step objects to the generic runner; the error of a failed step carries no wrapped message.
- WorkspaceStore.Store.DraftAssistant: the model's answer is an input of the operation, and a disclosure keeps its id, time, customer, provider and locality only; the gateway is modelled by itself in `ModelGateway`.
- WorkspaceStore.Store.CreateDocument: title and body are inputs of the operation; the templates that render them are left out.
- Stores without an attached journal or authority store behave as the code says but are not part of the run theorems of `Executor` and `AuthorityRuns`.
- ExecutionJournal.TornLogReadsExactly: the journal text is taken to be characters, so a write torn inside one multi-byte character, which the source reports as a corrupt record, does not occur; the executor's own records are ASCII.
- Workflow checkpoints are taken to stay under the reload limit of 256 KiB (`crates/workflow/src/lib.rs:139`).
- ExportBundle.VerifyExportMeaning: a public key in an event is always well formed, so the note about an invalid signing key is not modelled, nor are the counters of customers, documents and approvals.
- InputSchema.ValidateDeclaration: property maps are lists of pairs in the map's order; duplicate keys of raw JSON are refused before the model starts.
