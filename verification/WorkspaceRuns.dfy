/** What holds in every reachable state of the workspace files, crashed states included. */
module WorkspaceRuns {
  import opened Wrappers
  import opened AuditLedger
  import opened WorkspaceTypes
  import opened WorkspaceOps
  import opened Integrity
  import opened WorkspaceInvariant
  import opened WorkspaceSafety
  import opened WorkspaceOpSafety
  import opened WorkspaceFrame
  import WF = Workflow

  /** The documents whose revocation some attempt started. */
  function Revoking(attempts: seq<Attempt>): set<Id> {
    if attempts == [] then {} else Touch({}, attempts[0].op) + Revoking(attempts[1..])
  }

  /** The approvals some attempt tried to grant. */
  function Approving(attempts: seq<Attempt>): set<Id> {
    if attempts == [] then {}
    else (if attempts[0].op.Approve? then {attempts[0].op.approval} else {}) + Approving(attempts[1..])
  }

  lemma {:induction false} RunKeepsInv(cfg: Config, d: Disk, attempts: seq<Attempt>, revoking: set<Id>)
    requires Inv(cfg.deviceKey, d, revoking) && FreshAttempts(cfg, d, attempts)
    ensures Inv(cfg.deviceKey, RunAttempts(cfg, d, attempts), revoking + Revoking(attempts))
    decreases |attempts|
  {
    if attempts == [] {
      assert revoking + {} == revoking;
    } else {
      var op := attempts[0].op;
      InterruptedSafe(cfg, d, op, attempts[0].crashAfter, revoking);
      var next := Touch(revoking, op);
      RunKeepsInv(cfg, Interrupted(cfg, d, op, attempts[0].crashAfter), attempts[1..], next);
      assert next + Revoking(attempts[1..]) == revoking + Revoking(attempts);
    }
  }

  lemma EmptyInv(key: Key)
    ensures Inv(key, EMPTY_DISK, {})
  {
  }

  /** Every message belongs to an approval of the set. */
  ghost predicate SentBy(d: Disk, approving: set<Id>) {
    forall id <- d.outbox.Keys :: SentFor(d.vault.approvals, id, approving)
  }

  predicate SentFor(approvals: seq<Approval>, document: Id, approving: set<Id>) {
    exists j :: 0 <= j < |approvals| && approvals[j].documentId == document && approvals[j].id in approving
  }

  lemma SentForKept(before: Workspace, after: Workspace, document: Id, approving: set<Id>, more: set<Id>)
    requires Keeps(before, after) && SentFor(before.approvals, document, approving) && approving <= more
    ensures SentFor(after.approvals, document, more)
  {
    var j :| 0 <= j < |before.approvals| && before.approvals[j].documentId == document && before.approvals[j].id in approving;
    assert after.approvals[j].documentId == document;
  }

  lemma OpKeepsSentBy(d: Disk, op: Op, e: Disk, approving: set<Id>)
    requires SentBy(d, approving) && Later(d, op, e)
    ensures SentBy(e, if op.Approve? then approving + {op.approval} else approving)
  {
    var more := if op.Approve? then approving + {op.approval} else approving;
    forall id <- e.outbox.Keys ensures SentFor(e.vault.approvals, id, more) {
      if Executing(d, op).Some? && id == Executing(d, op).value.documentId {
        var j := FindApproval(d.vault.approvals, op.approval).value;
        assert e.vault.approvals[j].documentId == id && e.vault.approvals[j].id == op.approval;
      } else {
        SentForKept(d.vault, e.vault, id, approving, more);
      }
    }
  }

  lemma {:induction false} RunKeepsSentBy(
    cfg: Config, d: Disk, attempts: seq<Attempt>, revoking: set<Id>, approving: set<Id>)
    requires Inv(cfg.deviceKey, d, revoking) && FreshAttempts(cfg, d, attempts) && SentBy(d, approving)
    ensures SentBy(RunAttempts(cfg, d, attempts), approving + Approving(attempts))
    decreases |attempts|
  {
    if attempts == [] {
      assert approving + {} == approving;
    } else {
      var op := attempts[0].op;
      var e := Interrupted(cfg, d, op, attempts[0].crashAfter);
      InterruptedSafe(cfg, d, op, attempts[0].crashAfter, revoking);
      InterruptedLater(cfg, d, op, attempts[0].crashAfter, revoking);
      OpKeepsSentBy(d, op, e, approving);
      var more := if op.Approve? then approving + {op.approval} else approving;
      RunKeepsSentBy(cfg, e, attempts[1..], Touch(revoking, op), more);
      assert more + Approving(attempts[1..]) == approving + Approving(attempts);
    }
  }

  /**
    Every reachable state, whatever was interrupted at whichever durable write:
    the chain verifies, the self-audit reports nothing critical, documents and
    approvals are in step, a message exists only for a document whose approval
    the owner tried to grant, and a revoked document has none.
  */
  lemma EveryReachableStateIsSound(cfg: Config, attempts: seq<Attempt>)
    requires FreshAttempts(cfg, EMPTY_DISK, attempts)
    ensures var d := RunAttempts(cfg, EMPTY_DISK, attempts);
      && Verified(d.ledger, cfg.deviceKey)
      && (forall f <- Findings(cfg.deviceKey, d) :: f.severity != Critical)
      && Lifecycle(d.vault)
      && SentBy(d, Approving(attempts))
      && (forall x <- d.vault.documents :: x.status == Revoked ==> x.id !in d.outbox)
  {
    var d := RunAttempts(cfg, EMPTY_DISK, attempts);
    EmptyInv(cfg.deviceKey);
    RunKeepsInv(cfg, EMPTY_DISK, attempts, {});
    RunKeepsSentBy(cfg, EMPTY_DISK, attempts, {}, {});
    assert {} + Approving(attempts) == Approving(attempts);
    FindingsMeaning(cfg.deviceKey, d);
    forall x <- d.vault.documents | x.status == Revoked ensures x.id !in d.outbox {
      RevokedHasNoMessage(cfg.deviceKey, d, {} + Revoking(attempts), x);
    }
  }

  lemma RevokedHasNoMessage(key: Key, d: Disk, revoking: set<Id>, x: Document)
    requires Inv(key, d, revoking) && x in d.vault.documents && x.status == Revoked
    ensures x.id !in d.outbox
  {
    var i :| 0 <= i < |d.vault.documents| && d.vault.documents[i] == x;
    FindDocumentAt(d.vault.documents, i);
    assert HasApproval(d.vault.approvals, x.id);
    var j :| 0 <= j < |d.vault.approvals| && d.vault.approvals[j].documentId == x.id;
    assert InStep(d.vault, d.vault.approvals[j]) && SendState(d, d.vault.approvals[j], revoking);
  }

  // ----------------------------------------------------- a checkpointed send

  /** A send whose first receipt is durable, and what is fixed from then on. */
  ghost predicate Checkpointed(d: Disk, j: nat, a: Approval, record: SignedApprovalRecord) {
    && j < |d.vault.approvals|
    && d.vault.approvals[j].id == a.id && d.vault.approvals[j].documentId == a.documentId
    && |CheckpointOf(d, a.id).completed| >= 1
    && a.id in d.records && d.records[a.id] == record
  }

  /** The operation neither writes the files of the send of `a` again nor asks the kernel chain for it. */
  ghost predicate DoesNotExecute(cfg: Config, d: Disk, op: Op, a: Approval) {
    && (op.Approve? && op.approval == a.id ==>
          && PlanOf(cfg, d, op).outcome != Failed(KernelFailed)
          && forall kernel, date :: PlanOf(cfg, d, Approve(op.approval, kernel, date, op.stamp)) == PlanOf(cfg, d, op))
    && forall w <- PlanOf(cfg, d, op).writes ::
      && !(w.PutRecord? && w.approval == a.id)
      && !(w.PutEml? && w.document == a.documentId)
      && (w.RemoveEml? && w.document == a.documentId ==> op.RevokeDelivery? && op.document == a.documentId)
  }

  ghost predicate NeverExecutes(cfg: Config, d: Disk, attempts: seq<Attempt>, a: Approval)
    decreases |attempts|
  {
    attempts == [] ||
    (DoesNotExecute(cfg, d, attempts[0].op, a)
     && NeverExecutes(cfg, Interrupted(cfg, d, attempts[0].op, attempts[0].crashAfter), attempts[1..], a))
  }

  lemma CheckpointedStep(cfg: Config, d: Disk, op: Op, crashAfter: nat, revoking: set<Id>,
                         j: nat, a: Approval, record: SignedApprovalRecord)
    requires Inv(cfg.deviceKey, d, revoking) && Checkpointed(d, j, a, record)
    ensures DoesNotExecute(cfg, d, op, a)
    ensures var e := Interrupted(cfg, d, op, crashAfter);
      && Checkpointed(e, j, a, record)
      && CheckpointOf(d, a.id).completed <= CheckpointOf(e, a.id).completed
      && (a.documentId in d.outbox && !(op.RevokeDelivery? && op.document == a.documentId) ==>
            a.documentId in e.outbox && e.outbox[a.documentId] == d.outbox[a.documentId])
  {
    InterruptedLater(cfg, d, op, crashAfter, revoking);
    PlanAllowed(cfg, d, op, revoking);
    if Executing(d, op).Some? {
      OtherSend(d, op, revoking, j);
    }
    if op.Approve? && op.approval == a.id {
      ReplayNeedsNoKernel(cfg, d, op);
      forall kernel, date
        ensures PlanOf(cfg, d, Approve(op.approval, kernel, date, op.stamp)) == PlanOf(cfg, d, op)
      {
        ReplaySkipsExecution(cfg, d, op, kernel, date);
      }
    }
    forall w <- PlanOf(cfg, d, op).writes
      ensures !(w.PutRecord? && w.approval == a.id) && !(w.PutEml? && w.document == a.documentId)
      ensures w.RemoveEml? && w.document == a.documentId ==> op.RevokeDelivery? && op.document == a.documentId
    {
      assert Allowed(d, op, w);
    }
  }

  /** Once the first receipt is durable nothing depends on the kernel chain or the date. */
  lemma ReplaySkipsExecution(cfg: Config, d: Disk, op: Op, kernel: Option<KernelRun>, date: string)
    requires op.Approve? && |CheckpointOf(d, op.approval).completed| >= 1
    ensures PlanOf(cfg, d, Approve(op.approval, kernel, date, op.stamp)) == PlanOf(cfg, d, op)
  {
    if DecisionGuard(d.vault, op.approval).Pass? {
      var a := d.vault.approvals[FindApproval(d.vault.approvals, op.approval).value];
      SendFromReceipt(cfg, d, a, kernel, date, op.stamp);
      SendFromReceipt(cfg, d, a, op.kernel, op.date, op.stamp);
    }
  }

  /** The first step of a send with a receipt does nothing. */
  lemma FirstStepReplays(d: Disk, a: Approval, kernel: Option<KernelRun>, message: string)
    requires |CheckpointOf(d, a.id).completed| >= 1
    ensures PlanStep0(d, a, kernel, message) == Plan([], Done)
  {
  }

  /** What is left of a send whose first step does nothing. */
  function RestOfSend(cfg: Config, d: Disk, a: Approval, stamp: Stamp): Plan {
    var c := CheckpointOf(d, a.id);
    if c.workflowId != WorkflowId(a.id) || WF.Diverges(c.completed, SEND_STEPS).Fail? then Plan([], Failed(WorkflowFailed))
    else
      Then(d, Plan([], Done), d1 => Then(d1, PlanStep1(cfg, d1, a, stamp), d2 => PlanFinish(d2, a)))
  }

  lemma SendFromReceipt(cfg: Config, d: Disk, a: Approval, kernel: Option<KernelRun>, date: string, stamp: Stamp)
    requires |CheckpointOf(d, a.id).completed| >= 1
    ensures PlanSend(cfg, d, a, kernel, date, stamp) == RestOfSend(cfg, d, a, stamp)
  {
    FirstStepReplays(d, a, kernel, MessageFor(d.vault, a.documentId, date));
  }

  lemma RestNeedsNoKernel(cfg: Config, d: Disk, a: Approval, stamp: Stamp)
    ensures RestOfSend(cfg, d, a, stamp).outcome != Failed(KernelFailed)
  {
  }

  lemma ReplayNeedsNoKernel(cfg: Config, d: Disk, op: Op)
    requires op.Approve? && |CheckpointOf(d, op.approval).completed| >= 1
    ensures PlanOf(cfg, d, op).outcome != Failed(KernelFailed)
  {
    if DecisionGuard(d.vault, op.approval).Pass? {
      var a := d.vault.approvals[FindApproval(d.vault.approvals, op.approval).value];
      SendFromReceipt(cfg, d, a, op.kernel, op.date, op.stamp);
      RestNeedsNoKernel(cfg, d, a, op.stamp);
    }
  }

  /** The send that runs is not one that has a receipt. */
  lemma OtherSend(d: Disk, op: Op, revoking: set<Id>, j: nat)
    requires Lifecycle(d.vault) && j < |d.vault.approvals| && Executing(d, op).Some?
    requires |CheckpointOf(d, d.vault.approvals[j].id).completed| >= 1
    ensures Executing(d, op).value.id != d.vault.approvals[j].id
    ensures Executing(d, op).value.documentId != d.vault.approvals[j].documentId
  {
  }

  lemma {:induction false} CheckpointedRun(cfg: Config, d: Disk, attempts: seq<Attempt>, revoking: set<Id>,
                                           j: nat, a: Approval, record: SignedApprovalRecord)
    requires Inv(cfg.deviceKey, d, revoking) && FreshAttempts(cfg, d, attempts) && Checkpointed(d, j, a, record)
    ensures NeverExecutes(cfg, d, attempts, a)
    ensures var e := RunAttempts(cfg, d, attempts);
      && Checkpointed(e, j, a, record)
      && CheckpointOf(d, a.id).completed <= CheckpointOf(e, a.id).completed
      && (a.documentId in d.outbox && a.documentId !in Revoking(attempts) ==>
            a.documentId in e.outbox && e.outbox[a.documentId] == d.outbox[a.documentId])
    decreases |attempts|
  {
    if attempts != [] {
      var op := attempts[0].op;
      CheckpointedStep(cfg, d, op, attempts[0].crashAfter, revoking, j, a, record);
      InterruptedSafe(cfg, d, op, attempts[0].crashAfter, revoking);
      CheckpointedRun(cfg, Interrupted(cfg, d, op, attempts[0].crashAfter), attempts[1..], Touch(revoking, op), j, a, record);
    }
  }

  /** What a reader of the files finds of a checkpointed send. */
  ghost predicate Consistent(d: Disk, j: nat, record: SignedApprovalRecord, revoking: set<Id>) {
    j < |d.vault.approvals| &&
    var a := d.vault.approvals[j];
    && |CheckpointOf(d, a.id).completed| >= 1
    && CheckpointOf(d, a.id).completed[0].output == Sha256(RecordBytes(record))
    && a.id in d.records && d.records[a.id] == record
    && record.outbox.Some? && record.outbox.value.emlOf == a.documentId
    && (a.status == Approved ==> a.evidence == Some(record))
    && (a.documentId in d.outbox ==> Sha256(d.outbox[a.documentId]) == record.outbox.value.contentSha256)
    && (a.documentId !in revoking ==> a.documentId in d.outbox)
  }

  lemma CheckpointedIsConsistent(key: Key, d: Disk, j: nat, a: Approval, record: SignedApprovalRecord, revoking: set<Id>)
    requires Inv(key, d, revoking) && Checkpointed(d, j, a, record)
    ensures Consistent(d, j, record, revoking)
  {
    assert SendState(d, d.vault.approvals[j], revoking);
  }

  /**
    Once the execute receipt of a send is checkpointed with `record.json`
    holding `record`, then whatever runs and crashes follow, that step never
    runs again, the record still hashes to the receipt's output, the message
    hashes to the record's digest until a revocation starts, and the evidence
    committed is exactly that record.
  */
  lemma CheckpointedSendIsFinal(cfg: Config, before: seq<Attempt>, more: seq<Attempt>, j: nat)
    requires FreshAttempts(cfg, EMPTY_DISK, before)
    requires FreshAttempts(cfg, RunAttempts(cfg, EMPTY_DISK, before), more)
    requires var d := RunAttempts(cfg, EMPTY_DISK, before);
      j < |d.vault.approvals| && |CheckpointOf(d, d.vault.approvals[j].id).completed| >= 1
    ensures var d := RunAttempts(cfg, EMPTY_DISK, before);
      var a := d.vault.approvals[j];
      var e := RunAttempts(cfg, d, more);
      && a.id in d.records
      && NeverExecutes(cfg, d, more, a)
      && Consistent(d, j, d.records[a.id], Revoking(before))
      && Consistent(e, j, d.records[a.id], Revoking(before) + Revoking(more))
      && e.vault.approvals[j].id == a.id && e.vault.approvals[j].documentId == a.documentId
      && CheckpointOf(d, a.id).completed <= CheckpointOf(e, a.id).completed
  {
    ReachableInv(cfg, before);
    CheckpointedSendFrom(cfg, RunAttempts(cfg, EMPTY_DISK, before), more, j, Revoking(before));
  }

  lemma ReachableInv(cfg: Config, attempts: seq<Attempt>)
    requires FreshAttempts(cfg, EMPTY_DISK, attempts)
    ensures Inv(cfg.deviceKey, RunAttempts(cfg, EMPTY_DISK, attempts), Revoking(attempts))
  {
    EmptyInv(cfg.deviceKey);
    RunKeepsInv(cfg, EMPTY_DISK, attempts, {});
    assert {} + Revoking(attempts) == Revoking(attempts);
  }

  lemma CheckpointedSendFrom(cfg: Config, d: Disk, more: seq<Attempt>, j: nat, revoking: set<Id>)
    requires Inv(cfg.deviceKey, d, revoking) && FreshAttempts(cfg, d, more)
    requires j < |d.vault.approvals| && |CheckpointOf(d, d.vault.approvals[j].id).completed| >= 1
    ensures var a := d.vault.approvals[j];
      var e := RunAttempts(cfg, d, more);
      && a.id in d.records
      && NeverExecutes(cfg, d, more, a)
      && Consistent(d, j, d.records[a.id], revoking)
      && Consistent(e, j, d.records[a.id], revoking + Revoking(more))
      && e.vault.approvals[j].id == a.id && e.vault.approvals[j].documentId == a.documentId
      && CheckpointOf(d, a.id).completed <= CheckpointOf(e, a.id).completed
  {
    var a := d.vault.approvals[j];
    assert SendState(d, a, revoking);
    CheckpointedIsConsistent(cfg.deviceKey, d, j, a, d.records[a.id], revoking);
    CheckpointedRun(cfg, d, more, revoking, j, a, d.records[a.id]);
    RunKeepsInv(cfg, d, more, revoking);
    CheckpointedIsConsistent(
      cfg.deviceKey, RunAttempts(cfg, d, more), j, a, d.records[a.id], revoking + Revoking(more));
  }

  // ---------------------------------------------------------------- outcomes

  /** The failures that would mean damaged files never happen in a reachable state. */
  lemma DamageIsUnreachable(cfg: Config, d: Disk, op: Op, revoking: set<Id>)
    requires Inv(cfg.deviceKey, d, revoking)
    ensures PlanOf(cfg, d, op).outcome
      !in {Failed(LedgerCorrupt), Failed(WorkflowFailed), Failed(NoOutboxEffect)}
  {
    FaultFreeIffVerified(d.ledger, Some(cfg.deviceKey));
    if op.Approve? {
      ApproveNotDamaged(cfg, d, op, revoking);
    } else if op.RevokeDelivery? {
      MoreRevoking(cfg.deviceKey, d, revoking, revoking + {op.document});
      RevokeSafe(cfg, d, op, revoking + {op.document});
      RevokeNotDamaged(cfg, d, op);
    } else {
      CommitNotDamaged(cfg, d, op);
    }
  }

  lemma ApproveNotDamaged(cfg: Config, d: Disk, op: Op, revoking: set<Id>)
    requires Inv(cfg.deviceKey, d, revoking) && op.Approve?
    ensures PlanOf(cfg, d, op).outcome in {Done, Failed(NotFound), Failed(Invalid), Failed(KernelFailed)}
  {
    if DecisionGuard(d.vault, op.approval).Pass? {
      SendSafe(cfg, d, FindApproval(d.vault.approvals, op.approval).value, op.kernel, op.date, op.stamp, revoking);
    }
  }

  lemma CommitNotDamaged(cfg: Config, d: Disk, op: Op)
    requires ChainFault(d.ledger, Some(cfg.deviceKey)).Pass? && !op.Approve? && !op.RevokeDelivery?
    ensures PlanOf(cfg, d, op).outcome in {Done, Failed(NotFound), Failed(Invalid), Failed(PolicyDenied)}
  {
  }

  lemma RevokeNotDamaged(cfg: Config, d: Disk, op: Op)
    requires ChainFault(d.ledger, Some(cfg.deviceKey)).Pass? && op.RevokeDelivery?
    ensures PlanOf(cfg, d, op).outcome !in {Failed(LedgerCorrupt), Failed(WorkflowFailed)}
  {
  }

  /** An approval is granted exactly when it is pending and either its send is checkpointed or the kernel chain succeeds. */
  lemma ApproveSucceedsExactly(cfg: Config, d: Disk, op: Op, revoking: set<Id>)
    requires Inv(cfg.deviceKey, d, revoking) && op.Approve?
    ensures PlanOf(cfg, d, op).outcome.Done?
      <==> (var j := FindApproval(d.vault.approvals, op.approval);
            && j.Some? && d.vault.approvals[j.value].status == Pending
            && (|CheckpointOf(d, op.approval).completed| >= 1 || op.kernel.Some?))
  {
    var j := FindApproval(d.vault.approvals, op.approval);
    if j.Some? {
      SendingFacts(cfg.deviceKey, d, j.value, revoking);
      if d.vault.approvals[j.value].status == Pending {
        SendSafe(cfg, d, j.value, op.kernel, op.date, op.stamp, revoking);
      }
    }
  }
}
