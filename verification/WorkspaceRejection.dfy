/** What heals an approval that was interrupted inside its commit, and what does not. */
module WorkspaceRejection {
  import opened Wrappers
  import opened AuditLedger
  import opened WorkspaceTypes
  import opened WorkspaceOps
  import opened Integrity
  import opened WorkspaceInvariant
  import opened WorkspaceSafety
  import opened WorkspaceOpSafety
  import opened WorkspaceFrame
  import opened WorkspaceRuns
  import opened WorkspaceHealing

  // -------------------------------------------------------- the commit window

  /** The crash fell inside the commit: the chain is saved, the workspace is not. */
  predicate InCommit(writes: seq<Write>, k: nat) {
    && k <= |writes|
    && (exists i :: 0 <= i < k && writes[i].SaveLedger?)
    && (forall i | 0 <= i < k :: !writes[i].PutVault?)
  }

  /** Writes of files only. */
  predicate FilesOnly(writes: seq<Write>) { forall w <- writes :: !w.SaveLedger? && !w.PutVault? }

  lemma {:induction false} FilesKeepState(d: Disk, writes: seq<Write>)
    requires FilesOnly(writes)
    ensures ApplyAll(d, writes).ledger == d.ledger && ApplyAll(d, writes).vault == d.vault
    decreases |writes|
  {
    if writes != [] {
      FilesKeepState(Apply(d, writes[0]), writes[1..]);
    }
  }

  /** A crash in the commit leaves the files before it and the first of its two saves. */
  lemma CutInCommit(before: seq<Write>, rest: seq<Write>, k: nat)
    requires FilesOnly(before) && |rest| >= 2 && rest[0].SaveLedger? && rest[1].PutVault?
    requires InCommit(before + rest, k)
    ensures (before + rest)[..k] == before + [rest[0]]
  {
    var writes := before + rest;
    assert writes[|before|] == rest[0] && writes[|before| + 1] == rest[1];
    assert forall i | 0 <= i < |before| :: writes[i] == before[i];
  }

  lemma Step0WritesFiles(d: Disk, a: Approval, kernel: Option<KernelRun>, message: string)
    ensures FilesOnly(PlanStep0(d, a, kernel, message).writes)
  {
  }

  lemma FinishWritesFiles(d: Disk, a: Approval)
    ensures FilesOnly(PlanFinish(d, a).writes)
  {
  }

  /** The chain of a grant: its first new event is the grant. */
  predicate AnnouncesGrant(d: Disk, ledger: Ledger) {
    d.ledger < ledger && ledger[|d.ledger|].body.content.action == ApprovalGranted
  }

  lemma GrantIsAnnounced(cfg: Config, d: Disk, a: Approval, record: SignedApprovalRecord, stamp: Stamp)
    requires Verified(d.ledger, cfg.deviceKey)
    ensures AnnouncesGrant(d, Signed(cfg, d, GrantEntries(a, record), stamp).ledger)
  {
    AppendAllExtends(d.ledger, GrantEntries(a, record), stamp.firstEventId, stamp.at, cfg.deviceKey);
    var longer := Signed(cfg, d, GrantEntries(a, record), stamp).ledger;
    assert longer[|d.ledger| + 0].body.content == GrantEntries(a, record)[0];
  }

  /** The commit step of a checkpointed send: the two saves of its commit, and its receipt. */
  lemma Step1Writes(cfg: Config, d: Disk, j: nat, stamp: Stamp)
    requires ChainFault(d.ledger, Some(cfg.deviceKey)).Pass?
    requires j < |d.vault.approvals| && FindApproval(d.vault.approvals, d.vault.approvals[j].id) == Some(j)
    requires d.vault.approvals[j].status == Pending && d.vault.approvals[j].id in d.records
    requires FindDocument(d.vault.documents, d.vault.approvals[j].documentId).Some?
    requires |CheckpointOf(d, d.vault.approvals[j].id).completed| == 1
    ensures var a := d.vault.approvals[j];
      var record := d.records[a.id];
      PlanStep1(cfg, d, a, stamp).writes
        == [SaveLedger(Signed(cfg, d, GrantEntries(a, record), stamp).ledger),
            PutVault(GrantedVault(d.vault, j, record, stamp))]
           + [PutCheckpoint(a.id, WithReceipt(CheckpointOf(d, a.id), a.id, 1, COMMIT_STEP, Committed))]
  {
    CommitDecisionShape(cfg, d, j, stamp);
  }

  /** What is planned after the first step: the two saves of the commit, then files. */
  ghost predicate CommitsFirst(d: Disk, writes: seq<Write>) {
    && |writes| >= 2 && writes[0].SaveLedger? && writes[1].PutVault?
    && AnnouncesGrant(d, writes[0].ledger) && FilesOnly(writes[2..])
  }

  lemma CommitFacts(key: Key, d: Disk, j: nat, revoking: set<Id>)
    requires Sending(key, d, j, revoking) && |CheckpointOf(d, d.vault.approvals[j].id).completed| == 1
    ensures ChainFault(d.ledger, Some(key)).Pass? && Verified(d.ledger, key)
    ensures FindApproval(d.vault.approvals, d.vault.approvals[j].id) == Some(j)
    ensures d.vault.approvals[j].id in d.records
    ensures FindDocument(d.vault.documents, d.vault.approvals[j].documentId).Some?
  {
    SendingFacts(key, d, j, revoking);
    FaultFreeIffVerified(d.ledger, Some(key));
  }

  lemma Step1CommitsFirst(cfg: Config, d: Disk, j: nat, stamp: Stamp)
    requires ChainFault(d.ledger, Some(cfg.deviceKey)).Pass? && Verified(d.ledger, cfg.deviceKey)
    requires j < |d.vault.approvals| && FindApproval(d.vault.approvals, d.vault.approvals[j].id) == Some(j)
    requires d.vault.approvals[j].status == Pending && d.vault.approvals[j].id in d.records
    requires FindDocument(d.vault.documents, d.vault.approvals[j].documentId).Some?
    requires |CheckpointOf(d, d.vault.approvals[j].id).completed| == 1
    ensures CommitsFirst(d, PlanStep1(cfg, d, d.vault.approvals[j], stamp).writes)
  {
    var a := d.vault.approvals[j];
    Step1Writes(cfg, d, j, stamp);
    GrantIsAnnounced(cfg, d, a, d.records[a.id], stamp);
  }

  lemma SettleWrites(cfg: Config, d: Disk, j: nat, stamp: Stamp, revoking: set<Id>)
    requires Sending(cfg.deviceKey, d, j, revoking)
    requires |CheckpointOf(d, d.vault.approvals[j].id).completed| == 1
    ensures var a := d.vault.approvals[j];
      var step1 := PlanStep1(cfg, d, a, stamp).writes;
      CommitsFirst(d, step1 + PlanFinish(ApplyAll(d, step1), a).writes)
  {
    var a := d.vault.approvals[j];
    CommitFacts(cfg.deviceKey, d, j, revoking);
    Step1CommitsFirst(cfg, d, j, stamp);
    FinishWritesFiles(ApplyAll(d, PlanStep1(cfg, d, a, stamp).writes), a);
  }

  lemma SendIsThreeParts(cfg: Config, d: Disk, a: Approval, kernel: Option<KernelRun>, date: string, stamp: Stamp)
    requires PlanSend(cfg, d, a, kernel, date, stamp).outcome.Done?
    ensures var first := PlanStep0(d, a, kernel, MessageFor(d.vault, a.documentId, date));
      var d1 := ApplyAll(d, first.writes);
      var second := PlanStep1(cfg, d1, a, stamp);
      && first.outcome.Done?
      && PlanSend(cfg, d, a, kernel, date, stamp).writes
           == first.writes + (second.writes + PlanFinish(ApplyAll(d1, second.writes), a).writes)
  {
    var first := PlanStep0(d, a, kernel, MessageFor(d.vault, a.documentId, date));
    var next := (d1: Disk) => Then(d1, PlanStep1(cfg, d1, a, stamp), d2 => PlanFinish(d2, a));
    assert PlanSend(cfg, d, a, kernel, date, stamp) == Then(d, first, next);
  }

  lemma SentMessage(key: Key, d: Disk, j: nat, revoking: set<Id>)
    requires Sending(key, d, j, revoking) && |CheckpointOf(d, d.vault.approvals[j].id).completed| == 1
    ensures d.vault.approvals[j].documentId in d.outbox
  {
    SendingFacts(key, d, j, revoking);
  }

  /** The writes of a send that succeeds: files, the two saves of its commit, files. */
  lemma SendWrites(cfg: Config, d: Disk, j: nat, kernel: Option<KernelRun>, date: string, stamp: Stamp, revoking: set<Id>)
    returns (before: seq<Write>, rest: seq<Write>)
    requires Sending(cfg.deviceKey, d, j, revoking)
    requires PlanSend(cfg, d, d.vault.approvals[j], kernel, date, stamp).outcome.Done?
    ensures PlanSend(cfg, d, d.vault.approvals[j], kernel, date, stamp).writes == before + rest
    ensures FilesOnly(before) && CommitsFirst(d, rest)
    ensures d.vault.approvals[j].documentId in ApplyAll(d, before).outbox
  {
    var a := d.vault.approvals[j];
    var message := MessageFor(d.vault, a.documentId, date);
    SendIsThreeParts(cfg, d, a, kernel, date, stamp);
    before := PlanStep0(d, a, kernel, message).writes;
    Step0WritesFiles(d, a, kernel, message);
    var d1 := ApplyAll(d, before);
    SentFacts(cfg.deviceKey, d, j, kernel, message, revoking);
    SettleWrites(cfg, d1, j, stamp, revoking);
    SentMessage(cfg.deviceKey, d1, j, revoking);
    var step1 := PlanStep1(cfg, d1, a, stamp).writes;
    rest := step1 + PlanFinish(ApplyAll(d1, step1), a).writes;
  }

  /** An approval that fails signs nothing. */
  lemma FailedApproveSignsNothing(cfg: Config, d: Disk, op: Op, revoking: set<Id>)
    requires Inv(cfg.deviceKey, d, revoking) && op.Approve? && PlanOf(cfg, d, op).outcome.Failed?
    ensures FilesOnly(PlanOf(cfg, d, op).writes)
  {
    if DecisionGuard(d.vault, op.approval).Pass? {
      var j := FindApproval(d.vault.approvals, op.approval).value;
      FailedSendFacts(cfg, d, op, j, revoking);
      FailedSendRemoves(cfg, d, op, d.vault.approvals[j]);
    }
  }

  lemma ApproveGuard(cfg: Config, d: Disk, op: Op)
    requires op.Approve? && PlanOf(cfg, d, op).outcome.Done?
    ensures DecisionGuard(d.vault, op.approval).Pass?
    ensures PlanOf(cfg, d, op)
      == PlanSend(cfg, d, d.vault.approvals[FindApproval(d.vault.approvals, op.approval).value], op.kernel, op.date, op.stamp)
  {
  }

  /** The document of an approval that can be decided. */
  function DocumentOf(vault: Workspace, approval: Id): Id
    requires DecisionGuard(vault, approval).Pass?
  {
    vault.approvals[FindApproval(vault.approvals, approval).value].documentId
  }

  lemma CutIsTake(writes: seq<Write>, k: nat)
    requires k <= |writes|
    ensures (if k < |writes| then writes[..k] else writes) == writes[..k]
  {
  }

  lemma SavedAfterFiles(d: Disk, before: seq<Write>, ledger: Ledger)
    requires FilesOnly(before)
    ensures var e := ApplyAll(d, before + [SaveLedger(ledger)]);
      e.vault == d.vault && e.ledger == ledger && e.outbox == ApplyAll(d, before).outbox
  {
    FilesKeepState(d, before);
    ApplyAllConcat(d, before, [SaveLedger(ledger)]);
    assert [SaveLedger(ledger)][1..] == [];
  }

  /**
    The files after an approval was interrupted inside its commit: the grant is
    announced, the message is there, the workspace is as before.
  */
  lemma ApproveInCommit(cfg: Config, d: Disk, op: Op, k: nat, revoking: set<Id>)
    requires Inv(cfg.deviceKey, d, revoking) && op.Approve? && InCommit(PlanOf(cfg, d, op).writes, k)
    ensures DecisionGuard(d.vault, op.approval).Pass?
    ensures var e := Interrupted(cfg, d, op, k);
      && e.vault == d.vault && AnnouncesGrant(d, e.ledger)
      && DocumentOf(d.vault, op.approval) in e.outbox
  {
    if PlanOf(cfg, d, op).outcome.Failed? {
      FailedApproveSignsNothing(cfg, d, op, revoking);
      assert false;
    }
    ApproveGuard(cfg, d, op);
    var j := FindApproval(d.vault.approvals, op.approval).value;
    var before, rest := SendWrites(cfg, d, j, op.kernel, op.date, op.stamp, revoking);
    CutIsTake(before + rest, k);
    CutInCommit(before, rest, k);
    SavedAfterFiles(d, before, rest[0].ledger);
  }

  // ------------------------------------------------------------ the rejection

  lemma PendingGrantIsTorn(vault: Workspace, j: nat, x: AuditEntry)
    requires Lifecycle(vault) && j < |vault.approvals| && vault.approvals[j].status == Pending
    requires x.action == ApprovalGranted && x.resource == DocumentResource(vault.approvals[j].documentId)
    ensures Torn(x, vault)
  {
    PendingInStep(vault, j);
  }

  /** A rejection of a pending approval succeeds. */
  lemma RejectSucceeds(cfg: Config, d: Disk, op: Op, revoking: set<Id>)
    requires Inv(cfg.deviceKey, d, revoking) && op.Reject? && DecisionGuard(d.vault, op.approval).Pass?
    ensures PlanOf(cfg, d, op).outcome.Done?
  {
    FaultFreeIffVerified(d.ledger, Some(cfg.deviceKey));
  }

  /** The announced grant trails on its document, and blocks every other operation on it. */
  lemma AnnouncedGrantBlocks(d: Disk, op: Op, e: Disk, next: Op)
    requires Lifecycle(d.vault) && op.Approve? && DecisionGuard(d.vault, op.approval).Pass?
    requires e.vault == d.vault && AnnouncesGrant(d, e.ledger) && Signs(d, op, e.ledger)
    requires ResourceOf(e, next) == ResourceOf(d, op) && !next.Approve?
    ensures Blocked(e, next)
  {
    var i := |d.ledger|;
    TrailAfter(d, op, e.ledger);
    assert EntryOf(d, op, e.ledger[i].body.content) && EntryOf(d, op, e.ledger[|e.ledger| - 1].body.content);
    PendingGrantIsTorn(d.vault, FindApproval(d.vault.approvals, op.approval).value, e.ledger[i].body.content);
  }

  /**
    An approval interrupted inside its commit and then rejected keeps the tail
    warning and its orphan message: the rejection always succeeds, and retrying
    another operation than the one that was interrupted does not heal.
  */
  lemma RejectLeavesTheWarning(cfg: Config, d: Disk, op: Op, k: nat, stamp: Stamp, revoking: set<Id>)
    requires Inv(cfg.deviceKey, d, revoking) && op.Approve? && InCommit(PlanOf(cfg, d, op).writes, k)
    ensures DecisionGuard(d.vault, op.approval).Pass?
    ensures var e := Interrupted(cfg, d, op, k);
      && PlanOf(cfg, e, Reject(op.approval, stamp)).outcome.Done?
      && Findings(cfg.deviceKey, Completed(cfg, e, Reject(op.approval, stamp))) != []
      && DocumentOf(d.vault, op.approval) in Completed(cfg, e, Reject(op.approval, stamp)).outbox
  {
    var e, reject := Interrupted(cfg, d, op, k), Reject(op.approval, stamp);
    ApproveInCommit(cfg, d, op, k, revoking);
    InterruptedSafe(cfg, d, op, k, revoking);
    InterruptedLater(cfg, d, op, k, revoking);
    RejectSucceeds(cfg, e, reject, revoking);
    AnnouncedGrantBlocks(d, op, e, reject);
    CompletedIsCleanExactly(cfg, e, reject, revoking);
    RejectKeepsMessages(cfg, e, reject, DocumentOf(d.vault, op.approval), revoking);
  }

  lemma RejectKeepsMessages(cfg: Config, d: Disk, op: Op, document: Id, revoking: set<Id>)
    requires Inv(cfg.deviceKey, d, revoking) && op.Reject? && document in d.outbox
    ensures document in Completed(cfg, d, op).outbox
  {
    CompletedLater(cfg, d, op, revoking);
    LaterKeepsMessage(d, op, Completed(cfg, d, op), document);
  }

  lemma CompletedLater(cfg: Config, d: Disk, op: Op, revoking: set<Id>)
    requires Inv(cfg.deviceKey, d, revoking)
    ensures Later(d, op, Completed(cfg, d, op))
  {
    InterruptedLater(cfg, d, op, |PlanOf(cfg, d, op).writes|, revoking);
  }

  lemma LaterKeepsMessage(d: Disk, op: Op, e: Disk, document: Id)
    requires Later(d, op, e) && op.Reject? && document in d.outbox
    ensures document in e.outbox
  {
  }

  /** A completed operation on the document of a pending approval decides that approval. */
  lemma OnlyDecisionsComplete(cfg: Config, d: Disk, j: nat, op: Op)
    requires Lifecycle(d.vault) && j < |d.vault.approvals| && d.vault.approvals[j].status == Pending
    requires Fresh(d, op) && PlanOf(cfg, d, op).outcome.Done?
    requires ResourceOf(d, op) == DocumentResource(d.vault.approvals[j].documentId)
    ensures op.Approve? || (op.Reject? && op.approval == d.vault.approvals[j].id)
  {
    PendingInStep(d.vault, j);
    if op.RevokeDelivery? {
      DoneRevokeGuard(cfg, d, op);
    } else if CommitOnly(op) {
      DoneGuards(cfg, d, op);
    }
  }

  /**
    From a clean self-audit, after an approval was interrupted inside its
    commit, a completed operation leaves a clean one exactly when it is not the
    rejection of that approval.
  */
  lemma InterruptedApprovalHealsExactly(cfg: Config, d: Disk, op: Op, k: nat, next: Op, revoking: set<Id>)
    requires Inv(cfg.deviceKey, d, revoking) && Findings(cfg.deviceKey, d) == []
    requires op.Approve? && InCommit(PlanOf(cfg, d, op).writes, k)
    requires var e := Interrupted(cfg, d, op, k); Fresh(e, next) && PlanOf(cfg, e, next).outcome.Done?
    ensures Findings(cfg.deviceKey, Completed(cfg, Interrupted(cfg, d, op, k), next)) == []
      <==> !(next.Reject? && next.approval == op.approval)
  {
    var e := Interrupted(cfg, d, op, k);
    ApproveInCommit(cfg, d, op, k, revoking);
    InterruptedSafe(cfg, d, op, k, revoking);
    InterruptedLater(cfg, d, op, k, revoking);
    CleanTearsNothing(cfg.deviceKey, d, ApprovalGranted);
    InterruptionTearsOnlyItself(d, op, e);
    CompletedIsCleanExactly(cfg, e, next, revoking);
    if next.Reject? && next.approval == op.approval {
      AnnouncedGrantBlocks(d, op, e, next);
    } else if Blocked(e, next) {
      BlockedIsRejection(cfg, d, op, e, next);
    }
  }

  lemma CleanTearsNothing(key: Key, d: Disk, action: Action)
    requires Findings(key, d) == []
    ensures TornOnlyBy(d, action)
  {
    FindingsMeaning(key, d);
  }

  lemma BlockedIsRejection(cfg: Config, d: Disk, op: Op, e: Disk, next: Op)
    requires Lifecycle(d.vault) && op.Approve? && DecisionGuard(d.vault, op.approval).Pass?
    requires e.vault == d.vault && AnnouncesGrant(d, e.ledger) && Signs(d, op, e.ledger)
    requires TornOnlyBy(e, ApprovalGranted) && Fresh(e, next) && PlanOf(cfg, e, next).outcome.Done?
    requires Blocked(e, next)
    ensures next.Reject? && next.approval == op.approval
  {
    assert EntryOf(d, op, e.ledger[|e.ledger| - 1].body.content);
    OnlyDecisionsComplete(cfg, e, FindApproval(d.vault.approvals, op.approval).value, next);
  }

  // -------------------------------------------------------------- it happens

  /** Every approval that can be granted can be interrupted inside its commit. */
  lemma CommitCanBeInterrupted(cfg: Config, d: Disk, op: Op, revoking: set<Id>)
    requires Inv(cfg.deviceKey, d, revoking) && op.Approve? && PlanOf(cfg, d, op).outcome.Done?
    ensures exists k :: InCommit(PlanOf(cfg, d, op).writes, k)
  {
    ApproveGuard(cfg, d, op);
    var j := FindApproval(d.vault.approvals, op.approval).value;
    var before, rest := SendWrites(cfg, d, j, op.kernel, op.date, op.stamp, revoking);
    SavedNext(before, rest);
  }

  lemma SavedNext(before: seq<Write>, rest: seq<Write>)
    requires FilesOnly(before) && rest != [] && rest[0].SaveLedger?
    ensures InCommit(before + rest, |before| + 1)
  {
    assert (before + rest)[|before|] == rest[0];
    assert forall i | 0 <= i < |before| :: (before + rest)[i] == before[i];
  }

  /** One more attempt at the end of a run. */
  lemma {:induction false} OneMoreAttempt(cfg: Config, d: Disk, attempts: seq<Attempt>, op: Op, k: nat)
    requires FreshAttempts(cfg, d, attempts) && Fresh(RunAttempts(cfg, d, attempts), op)
    ensures FreshAttempts(cfg, d, attempts + [Attempt(op, k)])
    ensures RunAttempts(cfg, d, attempts + [Attempt(op, k)]) == Interrupted(cfg, RunAttempts(cfg, d, attempts), op, k)
    decreases |attempts|
  {
    var more := attempts + [Attempt(op, k)];
    if attempts == [] {
      assert more[1..] == [];
    } else {
      assert more[1..] == attempts[1..] + [Attempt(op, k)];
      OneMoreAttempt(cfg, Interrupted(cfg, d, attempts[0].op, attempts[0].crashAfter), attempts[1..], op, k);
    }
  }

  /** A plain commit that completes at the end of a run. */
  lemma OneMoreCommit(cfg: Config, attempts: seq<Attempt>, op: Op) returns (more: seq<Attempt>)
    requires FreshAttempts(cfg, EMPTY_DISK, attempts) && CommitOnly(op)
    requires var d := RunAttempts(cfg, EMPTY_DISK, attempts); Fresh(d, op) && MayCommit(cfg, d.vault, op)
    ensures FreshAttempts(cfg, EMPTY_DISK, more)
    ensures RunAttempts(cfg, EMPTY_DISK, more).vault == NextVault(RunAttempts(cfg, EMPTY_DISK, attempts), op)
  {
    var d := RunAttempts(cfg, EMPTY_DISK, attempts);
    ReachableInv(cfg, attempts);
    FaultFreeIffVerified(d.ledger, Some(cfg.deviceKey));
    MayCommitDone(cfg, d, op);
    CommitShape(cfg, d, op);
    CommitResult(cfg, d, NextVault(d, op), [CommitEntry(d, op)], op.stamp);
    more := attempts + [Attempt(op, |PlanOf(cfg, d, op).writes|)];
    OneMoreAttempt(cfg, EMPTY_DISK, attempts, op, |PlanOf(cfg, d, op).writes|);
  }

  /** The four operations of a first send. */
  predicate MayCommit(cfg: Config, vault: Workspace, op: Op) {
    match op
    case SetVenture(_, _, _) => cfg.policy.updateVenture
    case AddCustomer(_, _, _, _, _) => cfg.policy.createCustomer && vault.customers == []
    case CreateDocument(_, kind, customer, _, _, _, _) =>
      && kind.Offer? && cfg.policy.draftOffer && vault.venture.Some? && vault.documents == []
      && FindCustomer(vault.customers, customer).Some?
    case RequestSend(document, _, _) =>
      cfg.policy.sendAllowed && cfg.policy.sendRequiresApproval && StatusOf(vault, document) == Some(Draft)
    case _ => false
  }

  lemma MayCommitDone(cfg: Config, d: Disk, op: Op)
    requires ChainFault(d.ledger, Some(cfg.deviceKey)).Pass? && MayCommit(cfg, d.vault, op)
    ensures PlanOf(cfg, d, op).outcome.Done?
  {
  }

  /** A policy under which a first offer can be sent. */
  predicate Permissive(policy: Policy) {
    && policy.updateVenture && policy.createCustomer && policy.draftOffer
    && policy.sendAllowed && policy.sendRequiresApproval
  }

  lemma PendingIsReachable(cfg: Config, stamp: Stamp) returns (attempts: seq<Attempt>, approval: Id)
    requires Permissive(cfg.policy)
    ensures FreshAttempts(cfg, EMPTY_DISK, attempts)
    ensures DecisionGuard(RunAttempts(cfg, EMPTY_DISK, attempts).vault, approval).Pass?
  {
    approval := 0;
    attempts := OneMoreCommit(cfg, [], SetVenture("", "", stamp));
    attempts := OneMoreCommit(cfg, attempts, AddCustomer(0, "", "", "", stamp));
    var d := RunAttempts(cfg, EMPTY_DISK, attempts);
    assert FindCustomer(d.vault.customers, 0) == Some(0);
    attempts := OneMoreCommit(cfg, attempts, CreateDocument(0, Offer, 0, None, "", "", stamp));
    attempts := OneMoreCommit(cfg, attempts, RequestSend(0, approval, stamp));
    var e := RunAttempts(cfg, EMPTY_DISK, attempts);
    assert e.vault.approvals == [Approval(approval, 0, Pending, stamp.at, None, None)];
    assert |e.vault.documents| == 1 && e.vault.documents[0].id == 0;
  }

  lemma CommitWindowIsReachable(cfg: Config, run: KernelRun, stamp: Stamp)
    returns (attempts: seq<Attempt>, approval: Id, k: nat)
    requires Permissive(cfg.policy)
    ensures FreshAttempts(cfg, EMPTY_DISK, attempts)
    ensures InCommit(
      PlanOf(cfg, RunAttempts(cfg, EMPTY_DISK, attempts), Approve(approval, Some(run), "", stamp)).writes, k)
  {
    attempts, approval := PendingIsReachable(cfg, stamp);
    var d := RunAttempts(cfg, EMPTY_DISK, attempts);
    var op := Approve(approval, Some(run), "", stamp);
    ReachableInv(cfg, attempts);
    PendingApproveDone(cfg, d, op, Revoking(attempts));
    CommitCanBeInterrupted(cfg, d, op, Revoking(attempts));
    k :| InCommit(PlanOf(cfg, d, op).writes, k);
  }

  /** The interrupted approval and its completed rejection, at the end of a run. */
  lemma RejectedAtTheEnd(cfg: Config, attempts: seq<Attempt>, op: Op, k: nat, stamp: Stamp) returns (more: seq<Attempt>)
    requires FreshAttempts(cfg, EMPTY_DISK, attempts) && op.Approve?
    requires InCommit(PlanOf(cfg, RunAttempts(cfg, EMPTY_DISK, attempts), op).writes, k)
    ensures FreshAttempts(cfg, EMPTY_DISK, more)
    ensures RunAttempts(cfg, EMPTY_DISK, more)
      == Completed(cfg, Interrupted(cfg, RunAttempts(cfg, EMPTY_DISK, attempts), op, k), Reject(op.approval, stamp))
  {
    OneMoreAttempt(cfg, EMPTY_DISK, attempts, op, k);
    var e := Interrupted(cfg, RunAttempts(cfg, EMPTY_DISK, attempts), op, k);
    var last := |PlanOf(cfg, e, Reject(op.approval, stamp)).writes|;
    more := attempts + [Attempt(op, k)] + [Attempt(Reject(op.approval, stamp), last)];
    OneMoreAttempt(cfg, EMPTY_DISK, attempts + [Attempt(op, k)], Reject(op.approval, stamp), last);
  }

  /**
    Under every such policy, from an empty workspace: an approval interrupted
    inside its commit, then its rejection, which completes and leaves the
    warning.  `whole` is that run with its last two operations.
  */
  lemma TheWarningIsReachable(cfg: Config, run: KernelRun, stamp: Stamp)
    returns (attempts: seq<Attempt>, approval: Id, k: nat, whole: seq<Attempt>)
    requires Permissive(cfg.policy)
    ensures FreshAttempts(cfg, EMPTY_DISK, attempts) && FreshAttempts(cfg, EMPTY_DISK, whole)
    ensures var d := RunAttempts(cfg, EMPTY_DISK, attempts);
      var op := Approve(approval, Some(run), "", stamp);
      var e := Interrupted(cfg, d, op, k);
      && InCommit(PlanOf(cfg, d, op).writes, k)
      && PlanOf(cfg, e, Reject(approval, stamp)).outcome.Done?
      && RunAttempts(cfg, EMPTY_DISK, whole) == Completed(cfg, e, Reject(approval, stamp))
      && Findings(cfg.deviceKey, RunAttempts(cfg, EMPTY_DISK, whole)) != []
  {
    attempts, approval, k := CommitWindowIsReachable(cfg, run, stamp);
    var op := Approve(approval, Some(run), "", stamp);
    ReachableInv(cfg, attempts);
    RejectLeavesTheWarning(cfg, RunAttempts(cfg, EMPTY_DISK, attempts), op, k, stamp, Revoking(attempts));
    whole := RejectedAtTheEnd(cfg, attempts, op, k, stamp);
  }

  lemma PendingApproveDone(cfg: Config, d: Disk, op: Op, revoking: set<Id>)
    requires Inv(cfg.deviceKey, d, revoking) && op.Approve? && op.kernel.Some?
    requires DecisionGuard(d.vault, op.approval).Pass?
    ensures PlanOf(cfg, d, op).outcome.Done?
  {
    ApproveSucceedsExactly(cfg, d, op, revoking);
  }
}
