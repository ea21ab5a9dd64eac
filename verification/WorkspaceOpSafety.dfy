/** Every operation keeps the invariant before, between and after its durable writes. */
module WorkspaceOpSafety {
  import opened Wrappers
  import opened AuditLedger
  import opened WorkspaceTypes
  import opened WorkspaceOps
  import opened Integrity
  import opened WorkspaceInvariant
  import opened WorkspaceSafety
  import WF = Workflow

  /** The documents whose revocation was attempted, after one more operation. */
  function Touch(revoking: set<Id>, op: Op): set<Id> {
    if op.RevokeDelivery? then revoking + {op.document} else revoking
  }

  // ------------------------------------------------------ the plain commits

  lemma SetVentureSafe(cfg: Config, d: Disk, op: Op, revoking: set<Id>)
    requires Inv(cfg.deviceKey, d, revoking) && op.SetVenture?
    ensures SafeAll(cfg.deviceKey, d, PlanOf(cfg, d, op).writes, revoking)
  {
    if cfg.policy.updateVenture {
      var vault := d.vault.(version := 1, venture := Some(Venture(op.name, op.service, op.stamp.at)));
      var entries := [AuditEntry(VentureUpdate, VentureProfile, Named(op.name))];
      SignedSafe(cfg, d, entries, op.stamp, revoking);
      SideWriteSafe(cfg.deviceKey, Signed(cfg, d, entries, op.stamp), revoking, vault);
      CommitSafe(cfg, d, vault, entries, op.stamp, revoking);
    }
  }

  lemma AddCustomerOpSafe(cfg: Config, d: Disk, op: Op, revoking: set<Id>)
    requires Inv(cfg.deviceKey, d, revoking) && op.AddCustomer?
    ensures SafeAll(cfg.deviceKey, d, PlanOf(cfg, d, op).writes, revoking)
  {
    if cfg.policy.createCustomer && |d.vault.customers| < MAX_CUSTOMERS {
      var c := Customer(op.id, op.name, op.email, op.notes, op.stamp.at);
      var vault := d.vault.(customers := d.vault.customers + [c]);
      var entries := [AuditEntry(CustomerCreate, CustomerResource(op.id), Named(op.name))];
      SignedSafe(cfg, d, entries, op.stamp, revoking);
      assert entries[0].action == CustomerCreate;
      AddCustomerSafe(cfg.deviceKey, Signed(cfg, d, entries, op.stamp), revoking, c);
      CommitSafe(cfg, d, vault, entries, op.stamp, revoking);
    }
  }

  lemma DraftAssistantSafe(cfg: Config, d: Disk, op: Op, revoking: set<Id>)
    requires Inv(cfg.deviceKey, d, revoking) && op.DraftAssistant?
    ensures SafeAll(cfg.deviceKey, d, PlanOf(cfg, d, op).writes, revoking)
  {
    if PlanOf(cfg, d, op).writes != [] {
      var entry := ModelDisclosure(op.disclosure, op.stamp.at, op.customer, op.provider.value, true);
      var vault := d.vault.(disclosures := d.vault.disclosures + [entry]);
      var entries := [AuditEntry(ModelDrafted, CustomerResource(op.customer), Drafted(op.provider.value))];
      SignedSafe(cfg, d, entries, op.stamp, revoking);
      SideWriteSafe(cfg.deviceKey, Signed(cfg, d, entries, op.stamp), revoking, vault);
      CommitSafe(cfg, d, vault, entries, op.stamp, revoking);
    }
  }

  lemma CreateDocumentSafe(cfg: Config, d: Disk, op: Op, revoking: set<Id>)
    requires Inv(cfg.deviceKey, d, revoking) && op.CreateDocument? && Fresh(d, op)
    ensures SafeAll(cfg.deviceKey, d, PlanOf(cfg, d, op).writes, revoking)
  {
    var x := Document(op.id, op.kind, op.customer, op.title, op.body, op.amountCents, Draft, op.stamp.at);
    var entries := [AuditEntry(DocumentDraft, DocumentResource(op.id), DraftOf(op.kind, op.title))];
    NewDocumentSafe(cfg, d, x, entries, op.stamp, revoking);
  }

  lemma NewDocumentSafe(cfg: Config, d: Disk, x: Document, entries: seq<AuditEntry>, stamp: Stamp, revoking: set<Id>)
    requires Inv(cfg.deviceKey, d, revoking) && x.status == Draft && FindDocument(d.vault.documents, x.id).None?
    ensures var vault := d.vault.(documents := d.vault.documents + [x]);
      SafeAll(cfg.deviceKey, d, PlanCommit(cfg, d, vault, entries, stamp).writes, revoking)
  {
    SignedSafe(cfg, d, entries, stamp, revoking);
    AddDocumentSafe(cfg.deviceKey, Signed(cfg, d, entries, stamp), revoking, x);
    CommitSafe(cfg, d, d.vault.(documents := d.vault.documents + [x]), entries, stamp, revoking);
  }

  lemma RequestSendSafe(cfg: Config, d: Disk, op: Op, revoking: set<Id>)
    requires Inv(cfg.deviceKey, d, revoking) && op.RequestSend? && Fresh(d, op)
    ensures SafeAll(cfg.deviceKey, d, PlanOf(cfg, d, op).writes, revoking)
  {
    if PlanOf(cfg, d, op).writes != [] {
      var i := FindDocument(d.vault.documents, op.document).value;
      var a := Approval(op.id, op.document, Pending, op.stamp.at, None, None);
      var entries := [AuditEntry(ApprovalRequested, DocumentResource(op.document), ForApproval(op.id))];
      SignedSafe(cfg, d, entries, op.stamp, revoking);
      RequestSafe(cfg.deviceKey, Signed(cfg, d, entries, op.stamp), revoking, i, a);
      CommitSafe(cfg, d, Requested(d.vault, i, a), entries, op.stamp, revoking);
    }
  }

  lemma RejectOpSafe(cfg: Config, d: Disk, op: Op, revoking: set<Id>)
    requires Inv(cfg.deviceKey, d, revoking) && op.Reject?
    ensures SafeAll(cfg.deviceKey, d, PlanOf(cfg, d, op).writes, revoking)
  {
    if DecisionGuard(d.vault, op.approval).Pass? {
      var j := FindApproval(d.vault.approvals, op.approval).value;
      var a := d.vault.approvals[j];
      var i := FindDocument(d.vault.documents, a.documentId).value;
      var decided := a.(status := Rejected, decidedAt := Some(op.stamp.at));
      var entries := [AuditEntry(ApprovalRejected, DocumentResource(a.documentId), ForApproval(op.approval))];
      SendingFacts(cfg.deviceKey, d, j, revoking);
      SignedSafe(cfg, d, entries, op.stamp, revoking);
      RejectSafe(cfg.deviceKey, Signed(cfg, d, entries, op.stamp), revoking, j, i, decided);
      CommitSafe(cfg, d, Decided(d.vault, j, i, decided, RejectedDocument), entries, op.stamp, revoking);
    }
  }

  lemma ConfirmSafe(cfg: Config, d: Disk, op: Op, revoking: set<Id>)
    requires Inv(cfg.deviceKey, d, revoking) && op.ConfirmDelivery?
    ensures SafeAll(cfg.deviceKey, d, PlanOf(cfg, d, op).writes, revoking)
  {
    if PlanOf(cfg, d, op).writes != [] {
      var i := FindDocument(d.vault.documents, op.document).value;
      var entries := [AuditEntry(DeliveryConfirmed, DocumentResource(op.document), Empty)];
      SignedSafe(cfg, d, entries, op.stamp, revoking);
      assert entries[0].action == DeliveryConfirmed;
      SettleSafe(cfg.deviceKey, Signed(cfg, d, entries, op.stamp), revoking, i, Delivered);
      CommitSafe(cfg, d, SetStatus(d.vault, i, Delivered), entries, op.stamp, revoking);
    }
  }

  // -------------------------------------------------------------- revocation

  /** A receipt is found, and it is the one of the document's only approval. */
  lemma {:induction false} LastOutboxFound(approvals: seq<Approval>, document: Id)
    ensures LastOutbox(approvals, document).Some?
      <==> exists j :: 0 <= j < |approvals| && approvals[j].documentId == document && ClaimsOutbox(approvals[j])
    ensures LastOutbox(approvals, document).Some? ==>
      exists j :: 0 <= j < |approvals| && approvals[j].documentId == document && ClaimsOutbox(approvals[j])
                  && approvals[j].evidence.value.outbox == LastOutbox(approvals, document)
  {
    if approvals != [] {
      var n := |approvals| - 1;
      LastOutboxFound(approvals[..n], document);
      forall j | 0 <= j < n ensures approvals[..n][j] == approvals[j] {}
      if approvals[n].documentId == document && ClaimsOutbox(approvals[n]) {
      } else if j :| 0 <= j < |approvals| && approvals[j].documentId == document && ClaimsOutbox(approvals[j]) {
        assert approvals[..n][j] == approvals[j];
      }
    }
  }

  /**
    The error "no outbox effect to revoke" cannot occur: a document that awaits
    delivery has a receipt, and it names that document's own message.
  */
  lemma RevokeFindsItsReceipt(key: Key, d: Disk, revoking: set<Id>, document: Id)
    requires Inv(key, d, revoking)
    requires StatusOf(d.vault, document) == Some(ApprovedPendingDelivery)
    ensures var receipt := LastOutbox(d.vault.approvals, document);
      receipt.Some? && receipt.value.emlOf == document
  {
    var i := FindDocument(d.vault.documents, document).value;
    assert HasApproval(d.vault.approvals, d.vault.documents[i].id);
    var j :| 0 <= j < |d.vault.approvals| && d.vault.approvals[j].documentId == document;
    assert InStep(d.vault, d.vault.approvals[j]);
    LastOutboxFound(d.vault.approvals, document);
    var k :| 0 <= k < |d.vault.approvals| && d.vault.approvals[k].documentId == document
      && ClaimsOutbox(d.vault.approvals[k])
      && d.vault.approvals[k].evidence.value.outbox == LastOutbox(d.vault.approvals, document);
    assert InStep(d.vault, d.vault.approvals[k]);
  }

  lemma RevokedRemovalKeepsSend(d: Disk, revoking: set<Id>, document: Id, a: Approval)
    requires SendState(d, a, revoking) && InStep(d.vault, a) && document in revoking
    requires StatusOf(d.vault, document) == Some(ApprovedPendingDelivery)
    ensures SendState(Apply(d, RemoveEml(document)), a, revoking)
  {
    if a.documentId != document {
      SameSend(d, Apply(d, RemoveEml(document)), a, revoking);
    }
  }

  /** A document whose revocation started may lose its message. */
  lemma RevokedRemovalSafe(key: Key, d: Disk, revoking: set<Id>, document: Id)
    requires Inv(key, d, revoking) && document in revoking
    requires StatusOf(d.vault, document) == Some(ApprovedPendingDelivery)
    ensures Inv(key, Apply(d, RemoveEml(document)), revoking)
  {
    forall j | 0 <= j < |d.vault.approvals|
      ensures SendState(Apply(d, RemoveEml(document)), d.vault.approvals[j], revoking)
    {
      RevokedRemovalKeepsSend(d, revoking, document, d.vault.approvals[j]);
    }
  }

  lemma RevokeSafe(cfg: Config, d: Disk, op: Op, revoking: set<Id>)
    requires Inv(cfg.deviceKey, d, revoking) && op.RevokeDelivery? && op.document in revoking
    ensures SafeAll(cfg.deviceKey, d, PlanOf(cfg, d, op).writes, revoking)
    ensures PlanOf(cfg, d, op).outcome != Failed(NoOutboxEffect)
  {
    var i := FindDocument(d.vault.documents, op.document);
    if i.Some? && d.vault.documents[i.value].status == ApprovedPendingDelivery {
      RevokeFindsItsReceipt(cfg.deviceKey, d, revoking, op.document);
      RevokeWritesSafe(cfg, d, op.document, RevokedEntry(d.vault, op.document), op.stamp, revoking);
      RevokeShape(cfg, d, op.document, op.stamp);
    }
  }

  lemma RevokedRemovalsSafe(key: Key, d: Disk, revoking: set<Id>, document: Id)
    requires Inv(key, d, revoking) && document in revoking
    requires StatusOf(d.vault, document) == Some(ApprovedPendingDelivery)
    ensures var removal := if document in d.outbox then [RemoveEml(document)] else [];
      && SafeAll(key, d, removal, revoking)
      && ApplyAll(d, removal) == Apply(d, RemoveEml(document))
      && Inv(key, Apply(d, RemoveEml(document)), revoking)
  {
    RevokedRemovalSafe(key, d, revoking, document);
    if document in d.outbox {
      SafeOne(key, d, RemoveEml(document), revoking);
    } else {
      RemovingNothing(d, document);
    }
  }

  lemma RemovingNothing(d: Disk, document: Id)
    requires document !in d.outbox
    ensures Apply(d, RemoveEml(document)) == d
  {
    assert d.outbox - {document} == d.outbox;
  }

  ghost function RevokedVault(vault: Workspace, document: Id): Workspace
    requires FindDocument(vault.documents, document).Some?
  {
    SetStatus(vault, FindDocument(vault.documents, document).value, Revoked)
  }

  lemma RevokedCommitSafe(cfg: Config, d: Disk, document: Id, entries: seq<AuditEntry>, stamp: Stamp, revoking: set<Id>)
    requires Inv(cfg.deviceKey, d, revoking) && document !in d.outbox
    requires StatusOf(d.vault, document) == Some(ApprovedPendingDelivery)
    requires |entries| == 1 && entries[0].action == EffectRevoked && entries[0].resource == DocumentResource(document)
    ensures var plan := PlanCommit(cfg, d, RevokedVault(d.vault, document), entries, stamp);
      && plan.outcome.Done?
      && SafeAll(cfg.deviceKey, d, plan.writes, revoking)
      && ApplyAll(d, plan.writes) == Signed(cfg, d, entries, stamp).(vault := RevokedVault(d.vault, document))
  {
    var i := FindDocument(d.vault.documents, document).value;
    SignedSafe(cfg, d, entries, stamp, revoking);
    SettleSafe(cfg.deviceKey, Signed(cfg, d, entries, stamp), revoking, i, Revoked);
    CommitSafe(cfg, d, RevokedVault(d.vault, document), entries, stamp, revoking);
  }

  /** The plan of a revocation: the removal, then the commit planned from the files it leaves. */
  lemma RevokeShape(cfg: Config, d: Disk, document: Id, stamp: Stamp)
    requires StatusOf(d.vault, document) == Some(ApprovedPendingDelivery)
    requires LastOutbox(d.vault.approvals, document).Some? && LastOutbox(d.vault.approvals, document).value.emlOf == document
    ensures var removal := if document in d.outbox then [RemoveEml(document)] else [];
      var commit := PlanCommit(cfg, Apply(d, RemoveEml(document)), RevokedVault(d.vault, document),
                               [RevokedEntry(d.vault, document)], stamp);
      PlanOf(cfg, d, RevokeDelivery(document, stamp)) == Plan(removal + commit.writes, commit.outcome)
  {
  }

  ghost function RevokedEntry(vault: Workspace, document: Id): AuditEntry
    requires LastOutbox(vault.approvals, document).Some?
  {
    AuditEntry(EffectRevoked, DocumentResource(document), Outbox(LastOutbox(vault.approvals, document).value))
  }

  lemma RevokeWritesSafe(cfg: Config, d: Disk, document: Id, entry: AuditEntry, stamp: Stamp, revoking: set<Id>)
    requires Inv(cfg.deviceKey, d, revoking) && document in revoking
    requires StatusOf(d.vault, document) == Some(ApprovedPendingDelivery)
    requires entry.action == EffectRevoked && entry.resource == DocumentResource(document)
    ensures var removal := if document in d.outbox then [RemoveEml(document)] else [];
      var d1 := Apply(d, RemoveEml(document));
      var commit := PlanCommit(cfg, d1, RevokedVault(d.vault, document), [entry], stamp);
      && commit.outcome.Done?
      && SafeAll(cfg.deviceKey, d, removal + commit.writes, revoking)
      && ApplyAll(d, removal + commit.writes)
           == Signed(cfg, d1, [entry], stamp).(vault := RevokedVault(d.vault, document))
  {
    var removal := if document in d.outbox then [RemoveEml(document)] else [];
    var d1 := Apply(d, RemoveEml(document));
    var commit := PlanCommit(cfg, d1, RevokedVault(d.vault, document), [entry], stamp);
    RevokedRemovalsSafe(cfg.deviceKey, d, revoking, document);
    RevokedCommitSafe(cfg, d1, document, [entry], stamp, revoking);
    SafeAllConcat(cfg.deviceKey, d, removal, commit.writes, revoking);
    ApplyAllConcat(d, removal, commit.writes);
  }

  // ---------------------------------------------------------- every operation

  lemma ApproveSafe(cfg: Config, d: Disk, op: Op, revoking: set<Id>)
    requires Inv(cfg.deviceKey, d, revoking) && op.Approve?
    ensures SafeAll(cfg.deviceKey, d, PlanOf(cfg, d, op).writes, revoking)
  {
    if DecisionGuard(d.vault, op.approval).Pass? {
      var j := FindApproval(d.vault.approvals, op.approval).value;
      SendSafe(cfg, d, j, op.kernel, op.date, op.stamp, revoking);
    }
  }

  /** The invariant holds before, between and after the durable writes of every operation. */
  lemma OpSafe(cfg: Config, d: Disk, op: Op, revoking: set<Id>)
    requires Inv(cfg.deviceKey, d, revoking) && Fresh(d, op)
    ensures SafeAll(cfg.deviceKey, d, PlanOf(cfg, d, op).writes, Touch(revoking, op))
  {
    MoreRevoking(cfg.deviceKey, d, revoking, Touch(revoking, op));
    match op
    case SetVenture(_, _, _) => SetVentureSafe(cfg, d, op, revoking);
    case AddCustomer(_, _, _, _, _) => AddCustomerOpSafe(cfg, d, op, revoking);
    case DraftAssistant(_, _, _, _) => DraftAssistantSafe(cfg, d, op, revoking);
    case CreateDocument(_, _, _, _, _, _, _) => CreateDocumentSafe(cfg, d, op, revoking);
    case RequestSend(_, _, _) => RequestSendSafe(cfg, d, op, revoking);
    case Approve(_, _, _, _) => ApproveSafe(cfg, d, op, revoking);
    case Reject(_, _) => RejectOpSafe(cfg, d, op, revoking);
    case RevokeDelivery(_, _) => RevokeSafe(cfg, d, op, Touch(revoking, op));
    case ConfirmDelivery(_, _) => ConfirmSafe(cfg, d, op, revoking);
    case Export(stamp) =>
      var entries := [AuditEntry(WorkspaceExport, WorkspaceAll, Empty)];
      SignedSafe(cfg, d, entries, stamp, revoking);
      SafeOne(cfg.deviceKey, d, SaveLedger(Signed(cfg, d, entries, stamp).ledger), revoking);
  }

  lemma InterruptedSafe(cfg: Config, d: Disk, op: Op, crashAfter: nat, revoking: set<Id>)
    requires Inv(cfg.deviceKey, d, revoking) && Fresh(d, op)
    ensures Inv(cfg.deviceKey, Interrupted(cfg, d, op, crashAfter), Touch(revoking, op))
  {
    OpSafe(cfg, d, op, revoking);
    var writes := PlanOf(cfg, d, op).writes;
    var k := if crashAfter < |writes| then crashAfter else |writes|;
    assert writes[..|writes|] == writes;
    SafeAllPrefix(cfg.deviceKey, d, writes, Touch(revoking, op), k);
  }
}
