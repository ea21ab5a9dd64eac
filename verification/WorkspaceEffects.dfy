/** When an operation on a reachable workspace succeeds, and what it has then done. */
module WorkspaceEffects {
  import opened Wrappers
  import opened AuditLedger
  import opened WorkspaceTypes
  import opened WorkspaceOps
  import opened Integrity
  import opened WorkspaceInvariant
  import opened WorkspaceSafety
  import opened WorkspaceOpSafety
  import opened WorkspaceFrame
  import opened WorkspaceRuns
  import opened WorkspaceHealing

  // ------------------------------------------------------------------ success

  /** The conditions an owner can see before asking. */
  predicate MayDo(cfg: Config, d: Disk, op: Op) {
    match op
    case SetVenture(_, _, _) => cfg.policy.updateVenture
    case AddCustomer(_, _, _, _, _) => cfg.policy.createCustomer && |d.vault.customers| < MAX_CUSTOMERS
    case DraftAssistant(customer, _, provider, _) =>
      d.vault.venture.Some? && FindCustomer(d.vault.customers, customer).Some? && provider.Some?
    case CreateDocument(_, kind, customer, amountCents, _, _, _) =>
      && d.vault.venture.Some? && FindCustomer(d.vault.customers, customer).Some?
      && |d.vault.documents| < MAX_DOCUMENTS && (kind == Invoice ==> amountCents.Some?)
      && (if kind.Offer? then cfg.policy.draftOffer else cfg.policy.draftInvoice)
    case RequestSend(document, _, _) =>
      StatusOf(d.vault, document) == Some(Draft) && cfg.policy.sendAllowed && cfg.policy.sendRequiresApproval
    case Approve(approval, kernel, _, _) =>
      PendingApprovalOf(d.vault, approval) && (|CheckpointOf(d, approval).completed| >= 1 || kernel.Some?)
    case Reject(approval, _) => PendingApprovalOf(d.vault, approval)
    case RevokeDelivery(document, _) => StatusOf(d.vault, document) == Some(ApprovedPendingDelivery)
    case ConfirmDelivery(document, _) => StatusOf(d.vault, document) == Some(ApprovedPendingDelivery)
    case Export(_) => true
  }

  predicate PendingApprovalOf(vault: Workspace, approval: Id) {
    var j := FindApproval(vault.approvals, approval);
    j.Some? && vault.approvals[j.value].status == Pending
  }

  lemma PendingMeansGuard(vault: Workspace, approval: Id)
    requires Lifecycle(vault)
    ensures DecisionGuard(vault, approval).Pass? <==> PendingApprovalOf(vault, approval)
  {
    if PendingApprovalOf(vault, approval) {
      PendingHasDocument(vault, FindApproval(vault.approvals, approval).value);
    }
  }

  lemma CommitSucceeds(cfg: Config, d: Disk, op: Op)
    requires ChainFault(d.ledger, Some(cfg.deviceKey)).Pass? && Lifecycle(d.vault) && CommitOnly(op)
    ensures PlanOf(cfg, d, op).outcome.Done? <==> MayDo(cfg, d, op)
  {
    if op.Reject? {
      RejectSucceeds(cfg, d, op);
    }
  }

  lemma RejectSucceeds(cfg: Config, d: Disk, op: Op)
    requires ChainFault(d.ledger, Some(cfg.deviceKey)).Pass? && Lifecycle(d.vault) && op.Reject?
    ensures PlanOf(cfg, d, op).outcome.Done? <==> MayDo(cfg, d, op)
  {
    PendingMeansGuard(d.vault, op.approval);
  }

  lemma RevokeSucceeds(cfg: Config, d: Disk, op: Op, revoking: set<Id>)
    requires Inv(cfg.deviceKey, d, revoking) && op.RevokeDelivery?
    ensures PlanOf(cfg, d, op).outcome.Done? <==> MayDo(cfg, d, op)
  {
    if StatusOf(d.vault, op.document) == Some(ApprovedPendingDelivery) {
      MoreRevoking(cfg.deviceKey, d, revoking, revoking + {op.document});
      RevokeFindsItsReceipt(cfg.deviceKey, d, revoking, op.document);
      RevokeWritesSafe(
        cfg, d, op.document, RevokedEntry(d.vault, op.document), op.stamp, revoking + {op.document});
      RevokeShape(cfg, d, op.document, op.stamp);
    }
  }

  /** On a reachable workspace every operation succeeds exactly when the owner may do it. */
  lemma OperationSucceedsExactly(cfg: Config, d: Disk, op: Op, revoking: set<Id>)
    requires Inv(cfg.deviceKey, d, revoking)
    ensures PlanOf(cfg, d, op).outcome.Done? <==> MayDo(cfg, d, op)
  {
    FaultFreeIffVerified(d.ledger, Some(cfg.deviceKey));
    if op.Approve? {
      ApproveSucceedsExactly(cfg, d, op, revoking);
    } else if op.RevokeDelivery? {
      RevokeSucceeds(cfg, d, op, revoking);
    } else if CommitOnly(op) {
      CommitSucceeds(cfg, d, op);
    }
  }

  // ------------------------------------------------------------------ effects

  /** The document an operation moves, and its status afterwards. */
  function Moved(d: Disk, op: Op): Option<(Id, DocumentStatus)> {
    match op
    case CreateDocument(id, _, _, _, _, _, _) => Some((id, Draft))
    case RequestSend(document, _, _) => Some((document, PendingApproval))
    case Approve(approval, _, _, _) => MovedBy(d.vault, approval, ApprovedPendingDelivery)
    case Reject(approval, _) => MovedBy(d.vault, approval, RejectedDocument)
    case RevokeDelivery(document, _) => Some((document, Revoked))
    case ConfirmDelivery(document, _) => Some((document, Delivered))
    case _ => None
  }

  function MovedBy(vault: Workspace, approval: Id, status: DocumentStatus): Option<(Id, DocumentStatus)> {
    var j := FindApproval(vault.approvals, approval);
    if j.None? then None else Some((vault.approvals[j.value].documentId, status))
  }

  /** Exactly the moved document changes status. */
  ghost predicate MovesOnly(d: Disk, op: Op, after: Workspace) {
    forall id :: StatusOf(after, id) ==
      if Moved(d, op).Some? && Moved(d, op).value.0 == id then Some(Moved(d, op).value.1) else StatusOf(d.vault, id)
  }

  lemma CommitMoves(cfg: Config, d: Disk, op: Op)
    requires Lifecycle(d.vault) && CommitOnly(op) && Fresh(d, op) && PlanOf(cfg, d, op).outcome.Done?
    ensures MovesOnly(d, op, NextVault(d, op))
  {
    DoneGuards(cfg, d, op);
    if op.CreateDocument? {
      NewDocumentMoves(d, op);
    } else if op.RequestSend? || op.ConfirmDelivery? {
      StatusMoves(d, op);
    } else if op.Reject? {
      RejectMoves(d, op);
    }
  }

  lemma NewDocumentMoves(d: Disk, op: Op)
    requires op.CreateDocument? && Fresh(d, op)
    ensures MovesOnly(d, op, NextVault(d, op))
  {
    var x := Document(op.id, op.kind, op.customer, op.title, op.body, op.amountCents, Draft, op.stamp.at);
    forall id ensures StatusOf(NextVault(d, op), id) == if op.id == id then Some(Draft) else StatusOf(d.vault, id) {
      StatusAfterAppend(d.vault, x, id);
    }
  }

  lemma StatusMoves(d: Disk, op: Op)
    requires Lifecycle(d.vault) && (op.RequestSend? || op.ConfirmDelivery?)
    requires FindDocument(d.vault.documents, op.document).Some?
    ensures MovesOnly(d, op, NextVault(d, op))
  {
    var i := FindDocument(d.vault.documents, op.document).value;
    var status := if op.RequestSend? then PendingApproval else Delivered;
    forall id ensures StatusOf(NextVault(d, op), id) == if op.document == id then Some(status) else StatusOf(d.vault, id) {
      StatusAfterSet(d.vault, i, status, id);
    }
  }

  lemma RejectMoves(d: Disk, op: Op)
    requires Lifecycle(d.vault) && op.Reject? && DecisionGuard(d.vault, op.approval).Pass?
    ensures MovesOnly(d, op, NextVault(d, op))
  {
    var a := d.vault.approvals[FindApproval(d.vault.approvals, op.approval).value];
    var i := FindDocument(d.vault.documents, a.documentId).value;
    forall id
      ensures StatusOf(NextVault(d, op), id) == if a.documentId == id then Some(RejectedDocument) else StatusOf(d.vault, id)
    {
      StatusAfterSet(d.vault, i, RejectedDocument, id);
    }
  }

  lemma ApproveMoves(cfg: Config, d: Disk, op: Op, revoking: set<Id>)
    requires Inv(cfg.deviceKey, d, revoking) && op.Approve? && PlanOf(cfg, d, op).outcome.Done?
    ensures MovesOnly(d, op, Completed(cfg, d, op).vault)
  {
    var j := FindApproval(d.vault.approvals, op.approval).value;
    SendSafe(cfg, d, j, op.kernel, op.date, op.stamp, revoking);
  }

  lemma RevokeMoves(cfg: Config, d: Disk, op: Op, revoking: set<Id>)
    requires Inv(cfg.deviceKey, d, revoking) && op.RevokeDelivery? && MayDo(cfg, d, op)
    ensures MovesOnly(d, op, Completed(cfg, d, op).vault)
  {
    MoreRevoking(cfg.deviceKey, d, revoking, revoking + {op.document});
    RevokeFindsItsReceipt(cfg.deviceKey, d, revoking, op.document);
    RevokeShape(cfg, d, op.document, op.stamp);
    RevokeWritesSafe(cfg, d, op.document, RevokedEntry(d.vault, op.document), op.stamp, revoking + {op.document});
    var i := FindDocument(d.vault.documents, op.document).value;
    forall id
      ensures StatusOf(RevokedVault(d.vault, op.document), id)
        == if op.document == id then Some(Revoked) else StatusOf(d.vault, id)
    {
      StatusAfterSet(d.vault, i, Revoked, id);
    }
  }

  lemma CommitOnlyMoves(cfg: Config, d: Disk, op: Op)
    requires Verified(d.ledger, cfg.deviceKey) && Lifecycle(d.vault)
    requires CommitOnly(op) && Fresh(d, op) && PlanOf(cfg, d, op).outcome.Done?
    ensures MovesOnly(d, op, Completed(cfg, d, op).vault)
  {
    FaultFreeIffVerified(d.ledger, Some(cfg.deviceKey));
    CommitShape(cfg, d, op);
    CommitMoves(cfg, d, op);
    CommitResult(cfg, d, NextVault(d, op), [CommitEntry(d, op)], op.stamp);
  }

  lemma ExportMoves(cfg: Config, d: Disk, op: Op, revoking: set<Id>)
    requires Inv(cfg.deviceKey, d, revoking) && op.Export?
    ensures Completed(cfg, d, op).vault == d.vault
  {
    var entries := [AuditEntry(WorkspaceExport, WorkspaceAll, Empty)];
    SignedSafe(cfg, d, entries, op.stamp, revoking);
    SafeOne(cfg.deviceKey, d, SaveLedger(Signed(cfg, d, entries, op.stamp).ledger), revoking);
  }

  /**
    A completed operation moves exactly its own document to its next status,
    and has signed its events on that resource and no others.
  */
  lemma CompletedMovesExactly(cfg: Config, d: Disk, op: Op, revoking: set<Id>)
    requires Inv(cfg.deviceKey, d, revoking) && Fresh(d, op) && PlanOf(cfg, d, op).outcome.Done?
    ensures MovesOnly(d, op, Completed(cfg, d, op).vault)
    ensures Signs(d, op, Completed(cfg, d, op).ledger) && |d.ledger| < |Completed(cfg, d, op).ledger|
  {
    CompletedFacts(cfg, d, op, revoking);
    OperationSucceedsExactly(cfg, d, op, revoking);
    if op.Approve? {
      ApproveMoves(cfg, d, op, revoking);
    } else if op.RevokeDelivery? {
      RevokeMoves(cfg, d, op, revoking);
    } else if op.Export? {
      ExportMoves(cfg, d, op, revoking);
    } else {
      CommitOnlyMoves(cfg, d, op);
    }
  }

  // ------------------------------------------------- the exclusive message write

  /** No message is written over another one. */
  ghost predicate NeverOverwrites(d: Disk, writes: seq<Write>)
    decreases |writes|
  {
    writes == [] ||
    (&& (writes[0].PutEml? ==> writes[0].document !in d.outbox)
     && NeverOverwrites(Apply(d, writes[0]), writes[1..]))
  }

  predicate WritesNoMessage(writes: seq<Write>) { forall w <- writes :: !w.PutEml? }

  lemma {:induction false} NoMessageNeverOverwrites(d: Disk, writes: seq<Write>)
    requires WritesNoMessage(writes)
    ensures NeverOverwrites(d, writes)
    decreases |writes|
  {
    if writes != [] {
      NoMessageNeverOverwrites(Apply(d, writes[0]), writes[1..]);
    }
  }

  lemma {:induction false} NeverOverwritesConcat(d: Disk, a: seq<Write>, b: seq<Write>)
    requires NeverOverwrites(d, a) && NeverOverwrites(ApplyAll(d, a), b)
    ensures NeverOverwrites(d, a + b)
    decreases |a|
  {
    if a == [] {
      assert a + b == b;
    } else {
      assert (a + b)[0] == a[0] && (a + b)[1..] == a[1..] + b;
      NeverOverwritesConcat(Apply(d, a[0]), a[1..], b);
    }
  }

  /** The orphan of an interrupted attempt is gone before the message is written again. */
  lemma ExecuteNeverOverwrites(d: Disk, a: Approval, record: SignedApprovalRecord, message: string)
    ensures NeverOverwrites(d, ExecuteWrites(d, a, record, message))
  {
    var put := [PutEml(a.documentId, message), PutRecord(a.id, record)];
    assert put[1..] == [PutRecord(a.id, record)] && [PutRecord(a.id, record)][1..] == [];
    if a.documentId in d.outbox {
      var removal := [RemoveEml(a.documentId)];
      assert removal[1..] == [];
      NeverOverwritesConcat(d, removal, put);
    } else {
      assert [] + put == put;
    }
  }

  lemma Step0NeverOverwrites(d: Disk, a: Approval, kernel: Option<KernelRun>, message: string)
    ensures NeverOverwrites(d, PlanStep0(d, a, kernel, message).writes)
  {
    var execute := PlanExecute(d, a, kernel, message);
    if execute.outcome.Failed? {
      NoMessageNeverOverwrites(d, execute.writes);
    } else {
      var record := ExecutedRecord(a, kernel.value, message);
      var put := [PutCheckpoint(a.id, WithReceipt(CheckpointOf(d, a.id), a.id, 0, EXECUTE_STEP, RecordBytes(record)))];
      assert execute.writes == ExecuteWrites(d, a, record, message);
      ExecuteNeverOverwrites(d, a, record, message);
      NoMessageNeverOverwrites(ApplyAll(d, execute.writes), put);
      NeverOverwritesConcat(d, execute.writes, put);
    }
  }

  lemma SettleWritesNoMessage(cfg: Config, d: Disk, a: Approval, stamp: Stamp)
    ensures WritesNoMessage(Then(d, PlanStep1(cfg, d, a, stamp), d2 => PlanFinish(d2, a)).writes)
  {
  }

  /** Whatever was interrupted before, no operation overwrites a message. */
  lemma MessagesAreNeverOverwritten(cfg: Config, d: Disk, op: Op)
    ensures NeverOverwrites(d, PlanOf(cfg, d, op).writes)
  {
    if op.Approve? && DecisionGuard(d.vault, op.approval).Pass? {
      var a := d.vault.approvals[FindApproval(d.vault.approvals, op.approval).value];
      var message := MessageFor(d.vault, a.documentId, op.date);
      var first := PlanStep0(d, a, op.kernel, message);
      var d1 := ApplyAll(d, first.writes);
      var rest := Then(d1, PlanStep1(cfg, d1, a, op.stamp), d2 => PlanFinish(d2, a)).writes;
      Step0NeverOverwrites(d, a, op.kernel, message);
      SettleWritesNoMessage(cfg, d1, a, op.stamp);
      NoMessageNeverOverwrites(d1, rest);
      NeverOverwritesConcat(d, first.writes, rest);
      SendShape(cfg, d, a, op.kernel, op.date, op.stamp);
    } else {
      OthersWriteNoMessage(cfg, d, op);
      NoMessageNeverOverwrites(d, PlanOf(cfg, d, op).writes);
    }
  }

  lemma OthersWriteNoMessage(cfg: Config, d: Disk, op: Op)
    requires op.Approve? ==> DecisionGuard(d.vault, op.approval).Fail?
    ensures WritesNoMessage(PlanOf(cfg, d, op).writes)
  {
    if op.Approve? {
      assert PlanOf(cfg, d, op).writes == [];
    } else if op.RevokeDelivery? {
      RevokeWritesNoMessage(cfg, d, op);
    } else {
      CommitWritesNoMessage(cfg, d, op);
    }
  }

  lemma RevokeWritesNoMessage(cfg: Config, d: Disk, op: Op)
    requires op.RevokeDelivery?
    ensures WritesNoMessage(PlanOf(cfg, d, op).writes)
  {
  }

  lemma CommitWritesNoMessage(cfg: Config, d: Disk, op: Op)
    requires !op.Approve? && !op.RevokeDelivery?
    ensures WritesNoMessage(PlanOf(cfg, d, op).writes)
  {
  }
}
