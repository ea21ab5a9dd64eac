/** What a completed operation leaves, file by file and field by field, and why a failed one fails. */
module WorkspaceContents {
  import opened Wrappers
  import opened Strings
  import opened AuditLedger
  import opened WorkspaceTypes
  import opened WorkspaceOps
  import opened Integrity
  import opened WorkspaceInvariant
  import opened WorkspaceSafety
  import opened WorkspaceOpSafety
  import opened WorkspaceFrame
  import opened WorkspaceRuns
  import opened WorkspaceHealing
  import opened WorkspaceRejection
  import opened WorkspaceEffects
  import Compose
  import WF = Workflow

  // ------------------------------------------------------------ the vocabulary

  /** The chain grown by exactly these entries, numbered from the stamp, all linked and signed by the device. */
  ghost predicate SignedNow(key: Key, before: Ledger, after: Ledger, entries: seq<AuditEntry>, stamp: Stamp) {
    && before <= after && |after| == |before| + |entries| && Verified(after, key)
    && forall i: nat | i < |entries| :: Says(after[|before| + i], entries[i], stamp.firstEventId + i, stamp.at)
  }

  /** One document takes a status, and no other document changes. */
  ghost predicate DocumentMoves(before: seq<Document>, after: seq<Document>, id: Id, status: DocumentStatus) {
    && |after| == |before|
    && (exists i :: 0 <= i < |before| && before[i].id == id)
    && forall i | 0 <= i < |before| ::
         after[i] == if before[i].id == id then before[i].(status := status) else before[i]
  }

  /** One approval is decided, and no other approval changes. */
  ghost predicate ApprovalMoves(before: seq<Approval>, after: seq<Approval>, id: Id, status: ApprovalStatus, at: int,
                                evidence: Option<SignedApprovalRecord>)
  {
    && |after| == |before|
    && (exists i :: 0 <= i < |before| && before[i].id == id)
    && forall i | 0 <= i < |before| ::
         after[i] == if before[i].id == id
                     then Approval(id, before[i].documentId, status, before[i].requestedAt, Some(at), evidence)
                     else before[i]
  }

  /** The files outside the chain and the workspace. */
  predicate SameFiles(d: Disk, e: Disk) { e.outbox == d.outbox && e.records == d.records && e.checkpoints == d.checkpoints }

  /** Customer `k` is the one an id names: no earlier one has it. */
  predicate Names(customers: seq<Customer>, k: nat, id: Id) {
    k < |customers| && customers[k].id == id && forall i | 0 <= i < k :: customers[i].id != id
  }

  /** The customer a document names, or nobody when there is none. */
  ghost predicate RecipientOf(vault: Workspace, x: Document, customer: Option<Customer>) {
    match customer
    case None => forall c <- vault.customers :: c.id != x.customerId
    case Some(c) => exists k: nat :: Names(vault.customers, k, x.customerId) && vault.customers[k] == c
  }

  /** The message of a document, addressed to the customer it names. */
  ghost predicate IsMessageOf(vault: Workspace, x: Document, date: string, message: string) {
    exists customer :: RecipientOf(vault, x, customer) && message == Compose.Message(vault.venture, customer, x, date)
  }

  lemma {:induction false} FindCustomerIsFirst(customers: seq<Customer>, id: Id)
    ensures FindCustomer(customers, id).Some? ==> Names(customers, FindCustomer(customers, id).value, id)
  {
    if customers != [] && customers[0].id != id {
      FindCustomerIsFirst(customers[1..], id);
    }
  }

  lemma MessageIsAddressed(vault: Workspace, i: nat, date: string)
    requires Lifecycle(vault) && i < |vault.documents|
    ensures IsMessageOf(vault, vault.documents[i], date, MessageFor(vault, vault.documents[i].id, date))
  {
    var x := vault.documents[i];
    FindDocumentAt(vault.documents, i);
    FindCustomerIsFirst(vault.customers, x.customerId);
    var k := FindCustomer(vault.customers, x.customerId);
    assert RecipientOf(vault, x, if k.Some? then Some(vault.customers[k.value]) else None);
  }

  /** A document names one customer, or none. */
  lemma RecipientIsUnique(vault: Workspace, x: Document, a: Option<Customer>, b: Option<Customer>)
    requires RecipientOf(vault, x, a) && RecipientOf(vault, x, b)
    ensures a == b
  {
  }

  // ------------------------------------------------------- the plain operations

  /** What each operation but the grant leaves. */
  ghost predicate Leaves(key: Key, d: Disk, op: Op, e: Disk) {
    var was, now := d.vault, e.vault;
    match op
    case SetVenture(name, service, stamp) =>
      && SameFiles(d, e)
      && SignedNow(key, d.ledger, e.ledger, [AuditEntry(VentureUpdate, VentureProfile, Named(name))], stamp)
      && now == Workspace(1, Some(Venture(name, service, stamp.at)), was.customers, was.documents, was.approvals, was.disclosures)
    case AddCustomer(id, name, email, notes, stamp) =>
      && SameFiles(d, e)
      && SignedNow(key, d.ledger, e.ledger, [AuditEntry(CustomerCreate, CustomerResource(id), Named(name))], stamp)
      && now == was.(customers := was.customers + [Customer(id, name, email, notes, stamp.at)])
    case DraftAssistant(customer, disclosure, provider, stamp) =>
      && SameFiles(d, e) && provider.Some?
      && SignedNow(key, d.ledger, e.ledger,
                   [AuditEntry(ModelDrafted, CustomerResource(customer), Drafted(provider.value))], stamp)
      && now == was.(disclosures := was.disclosures
                       + [ModelDisclosure(disclosure, stamp.at, customer, provider.value, true)])
    case CreateDocument(id, kind, customer, amountCents, title, body, stamp) =>
      && SameFiles(d, e)
      && SignedNow(key, d.ledger, e.ledger, [AuditEntry(DocumentDraft, DocumentResource(id), DraftOf(kind, title))], stamp)
      && now == was.(documents := was.documents
                       + [Document(id, kind, customer, title, body, amountCents, Draft, stamp.at)])
    case RequestSend(document, id, stamp) =>
      && SameFiles(d, e)
      && SignedNow(key, d.ledger, e.ledger,
                   [AuditEntry(ApprovalRequested, DocumentResource(document), ForApproval(id))], stamp)
      && DocumentMoves(was.documents, now.documents, document, PendingApproval)
      && now.approvals == was.approvals + [Approval(id, document, Pending, stamp.at, None, None)]
      && now == was.(documents := now.documents, approvals := now.approvals)
    case Approve(_, _, _, _) => GrantLeaves(key, d, op, e)
    case Reject(approval, stamp) =>
      && SameFiles(d, e)
      && exists a <- was.approvals :: a.id == approval && a.evidence.None?
           && SignedNow(key, d.ledger, e.ledger,
                        [AuditEntry(ApprovalRejected, DocumentResource(a.documentId), ForApproval(approval))], stamp)
           && DocumentMoves(was.documents, now.documents, a.documentId, RejectedDocument)
           && ApprovalMoves(was.approvals, now.approvals, approval, Rejected, stamp.at, None)
           && now == was.(documents := now.documents, approvals := now.approvals)
    case RevokeDelivery(document, stamp) =>
      && e.outbox == d.outbox - {document} && e.records == d.records && e.checkpoints == d.checkpoints
      && exists a <- was.approvals :: a.documentId == document && ClaimsOutbox(a)
           && SignedNow(key, d.ledger, e.ledger,
                        [AuditEntry(EffectRevoked, DocumentResource(document), Outbox(a.evidence.value.outbox.value))], stamp)
           && DocumentMoves(was.documents, now.documents, document, Revoked)
           && now == was.(documents := now.documents)
    case ConfirmDelivery(document, stamp) =>
      && SameFiles(d, e)
      && SignedNow(key, d.ledger, e.ledger, [AuditEntry(DeliveryConfirmed, DocumentResource(document), Empty)], stamp)
      && DocumentMoves(was.documents, now.documents, document, Delivered)
      && now == was.(documents := now.documents)
    case Export(stamp) =>
      && SameFiles(d, e) && now == was
      && SignedNow(key, d.ledger, e.ledger, [AuditEntry(WorkspaceExport, WorkspaceAll, Empty)], stamp)
  }

  /** The files of the send of approval `a` under its record: the decision, three events, two receipts. */
  ghost predicate Sent(key: Key, d: Disk, a: Approval, record: SignedApprovalRecord, stamp: Stamp, e: Disk) {
    var resource := DocumentResource(a.documentId);
    && record.outbox.Some?
    && SignedNow(key, d.ledger, e.ledger,
                 [AuditEntry(ApprovalGranted, resource, Evidence(a.id, record.run)),
                  AuditEntry(CapabilityExecuted, resource, Executed(record.run)),
                  AuditEntry(FileWritten, resource, Outbox(record.outbox.value))], stamp)
    && DocumentMoves(d.vault.documents, e.vault.documents, a.documentId, ApprovedPendingDelivery)
    && ApprovalMoves(d.vault.approvals, e.vault.approvals, a.id, Approved, stamp.at, Some(record))
    && e.vault == d.vault.(documents := e.vault.documents, approvals := e.vault.approvals)
    && e.records == d.records[a.id := record]
    && e.checkpoints == d.checkpoints[a.id := WF.Checkpoint(WorkflowId(a.id), [
         WF.Receipt(WorkflowId(a.id), 0, EXECUTE_STEP, RecordBytes(record)),
         WF.Receipt(WorkflowId(a.id), 1, COMMIT_STEP, Committed)], true)]
  }

  /** The record of a new send: what the kernel chain returned, and the message it wrote. */
  function RecordOf(run: KernelRun, document: Id, message: string): SignedApprovalRecord {
    SignedApprovalRecord(run, Some(OutboxWrite(document, Sha256(message), Utf8Length(message))))
  }

  /**
    What a grant leaves: with a receipt the message and the record that were
    there, otherwise the message of the document to its own customer and the
    record of what the kernel chain returned for it.
  */
  ghost predicate GrantLeaves(key: Key, d: Disk, op: Op, e: Disk)
    requires op.Approve?
  {
    exists a, x | a in d.vault.approvals && x in d.vault.documents :: GrantLeavesFor(key, d, op, a, x, e)
  }

  ghost predicate GrantLeavesFor(key: Key, d: Disk, op: Op, a: Approval, x: Document, e: Disk)
    requires op.Approve?
  {
    && a.id == op.approval && x.id == a.documentId
    && if |CheckpointOf(d, a.id).completed| >= 1 then
         e.outbox == d.outbox && a.id in d.records && Sent(key, d, a, d.records[a.id], op.stamp, e)
       else
         && op.kernel.Some? && x.id in e.outbox
         && e.outbox == d.outbox[x.id := e.outbox[x.id]]
         && IsMessageOf(d.vault, x, op.date, e.outbox[x.id])
         && Sent(key, d, a, RecordOf(op.kernel.value, x.id, e.outbox[x.id]), op.stamp, e)
  }

  lemma SignedIsNow(cfg: Config, d: Disk, entries: seq<AuditEntry>, stamp: Stamp)
    requires Verified(d.ledger, cfg.deviceKey)
    ensures SignedNow(cfg.deviceKey, d.ledger, Signed(cfg, d, entries, stamp).ledger, entries, stamp)
  {
    AppendAllExtends(d.ledger, entries, stamp.firstEventId, stamp.at, cfg.deviceKey);
  }

  lemma ApplyFirst(d: Disk, w: Write, rest: seq<Write>)
    ensures ApplyAll(d, [w] + rest) == ApplyAll(Apply(d, w), rest)
    ensures ApplyAll(d, [w]) == Apply(d, w)
  {
    assert ([w] + rest)[1..] == rest && [w][1..] == [];
  }

  /** The files after a commit. */
  lemma CommitLeaves(cfg: Config, d: Disk, vault: Workspace, entries: seq<AuditEntry>, stamp: Stamp)
    requires Verified(d.ledger, cfg.deviceKey)
    ensures ApplyAll(d, PlanCommit(cfg, d, vault, entries, stamp).writes) == Signed(cfg, d, entries, stamp).(vault := vault)
    ensures ApplyAll(d, PlanAppend(cfg, d, entries, stamp).writes) == Signed(cfg, d, entries, stamp)
  {
    FaultFreeIffVerified(d.ledger, Some(cfg.deviceKey));
    var e := Signed(cfg, d, entries, stamp);
    assert PlanAppend(cfg, d, entries, stamp).writes == [SaveLedger(e.ledger)];
    assert PlanCommit(cfg, d, vault, entries, stamp).writes == [SaveLedger(e.ledger), PutVault(vault)];
    ApplyFirst(d, SaveLedger(e.ledger), [PutVault(vault)]);
    ApplyFirst(d, SaveLedger(e.ledger), []);
    ApplyFirst(e, PutVault(vault), []);
    assert [SaveLedger(e.ledger)] + [PutVault(vault)] == [SaveLedger(e.ledger), PutVault(vault)];
  }

  lemma SetMoves(vault: Workspace, i: nat, status: DocumentStatus)
    requires Lifecycle(vault) && i < |vault.documents|
    ensures DocumentMoves(vault.documents, SetStatus(vault, i, status).documents, vault.documents[i].id, status)
  {
    var before, after := vault.documents, SetStatus(vault, i, status).documents;
    forall k | 0 <= k < |before|
      ensures after[k] == if before[k].id == before[i].id then before[k].(status := status) else before[k]
    {
      if k != i {
        assert before[if k < i then k else i].id != before[if k < i then i else k].id;
      }
    }
  }

  lemma DecidedMoves(vault: Workspace, j: nat, status: ApprovalStatus, at: int, evidence: Option<SignedApprovalRecord>)
    requires Lifecycle(vault) && j < |vault.approvals|
    ensures var a := vault.approvals[j];
      ApprovalMoves(vault.approvals, vault.approvals[j := a.(status := status, decidedAt := Some(at), evidence := evidence)],
                    a.id, status, at, evidence)
  {
  }

  lemma CommitOnlyLeaves(cfg: Config, d: Disk, op: Op)
    requires Verified(d.ledger, cfg.deviceKey) && Lifecycle(d.vault)
    requires CommitOnly(op) && PlanOf(cfg, d, op).outcome.Done?
    ensures Leaves(cfg.deviceKey, d, op, Completed(cfg, d, op))
  {
    FaultFreeIffVerified(d.ledger, Some(cfg.deviceKey));
    CommitShape(cfg, d, op);
    CommitLeaves(cfg, d, NextVault(d, op), [CommitEntry(d, op)], op.stamp);
    SignedIsNow(cfg, d, [CommitEntry(d, op)], op.stamp);
    DoneGuards(cfg, d, op);
    VaultLeaves(cfg, d, op, Signed(cfg, d, [CommitEntry(d, op)], op.stamp).(vault := NextVault(d, op)));
  }

  lemma VaultLeaves(cfg: Config, d: Disk, op: Op, e: Disk)
    requires Lifecycle(d.vault) && CommitOnly(op)
    requires op.DraftAssistant? ==> op.provider.Some?
    requires e == d.(ledger := e.ledger, vault := NextVault(d, op))
    requires SignedNow(cfg.deviceKey, d.ledger, e.ledger, [CommitEntry(d, op)], op.stamp)
    requires op.Reject? ==> DecisionGuard(d.vault, op.approval).Pass?
    requires op.RequestSend? ==> StatusOf(d.vault, op.document) == Some(Draft)
    requires op.ConfirmDelivery? ==> StatusOf(d.vault, op.document) == Some(ApprovedPendingDelivery)
    ensures Leaves(cfg.deviceKey, d, op, e)
  {
    if op.RequestSend? {
      SetMoves(d.vault, FindDocument(d.vault.documents, op.document).value, PendingApproval);
    } else if op.ConfirmDelivery? {
      SetMoves(d.vault, FindDocument(d.vault.documents, op.document).value, Delivered);
    } else if op.Reject? {
      var j := FindApproval(d.vault.approvals, op.approval).value;
      var a := d.vault.approvals[j];
      assert InStep(d.vault, a);
      PendingInStep(d.vault, j);
      SetMoves(d.vault, FindDocument(d.vault.documents, a.documentId).value, RejectedDocument);
      DecidedMoves(d.vault, j, Rejected, op.stamp.at, None);
    }
  }

  // ----------------------------------------------------------------- the grant

  /** The receipts of a finished send. */
  ghost function FinalCheckpoint(a: Approval, record: SignedApprovalRecord): SendCheckpoint {
    WF.Checkpoint(WorkflowId(a.id), [
      WF.Receipt(WorkflowId(a.id), 0, EXECUTE_STEP, RecordBytes(record)),
      WF.Receipt(WorkflowId(a.id), 1, COMMIT_STEP, Committed)], true)
  }

  /** The files after the first step of a send without a receipt: its message, its record and its receipt. */
  ghost function AfterFirstStep(d: Disk, a: Approval, run: KernelRun, message: string): Disk {
    var record := RecordOf(run, a.documentId, message);
    d.(outbox := d.outbox[a.documentId := message], records := d.records[a.id := record],
       checkpoints := d.checkpoints[a.id :=
         WithReceipt(CheckpointOf(d, a.id), a.id, 0, EXECUTE_STEP, RecordBytes(record))])
  }

  lemma FirstStepWrites(d: Disk, a: Approval, run: KernelRun, message: string)
    requires FindApproval(d.vault.approvals, a.id).Some?
    requires d.vault.approvals[FindApproval(d.vault.approvals, a.id).value].status == Pending
    requires FindDocument(d.vault.documents, a.documentId).Some? && |CheckpointOf(d, a.id).completed| == 0
    ensures var record := RecordOf(run, a.documentId, message);
      var c := WithReceipt(CheckpointOf(d, a.id), a.id, 0, EXECUTE_STEP, RecordBytes(record));
      PlanStep0(d, a, Some(run), message).writes == ExecuteWrites(d, a, record, message) + [PutCheckpoint(a.id, c)]
  {
    ExecuteShape(d, a, Some(run), message);
  }

  lemma FirstStepLeaves(d: Disk, a: Approval, run: KernelRun, message: string)
    requires FindApproval(d.vault.approvals, a.id).Some?
    requires d.vault.approvals[FindApproval(d.vault.approvals, a.id).value].status == Pending
    requires FindDocument(d.vault.documents, a.documentId).Some? && |CheckpointOf(d, a.id).completed| == 0
    ensures ApplyAll(d, PlanStep0(d, a, Some(run), message).writes) == AfterFirstStep(d, a, run, message)
  {
    var record := RecordOf(run, a.documentId, message);
    var put := PutCheckpoint(a.id, WithReceipt(CheckpointOf(d, a.id), a.id, 0, EXECUTE_STEP, RecordBytes(record)));
    FirstStepWrites(d, a, run, message);
    ExecuteLeaves(d, a, record, message);
    ApplyAllConcat(d, ExecuteWrites(d, a, record, message), [put]);
    ApplyFirst(ApplyAll(d, ExecuteWrites(d, a, record, message)), put, []);
  }

  lemma ExecuteLeaves(d: Disk, a: Approval, record: SignedApprovalRecord, message: string)
    ensures ApplyAll(d, ExecuteWrites(d, a, record, message))
      == d.(outbox := d.outbox[a.documentId := message], records := d.records[a.id := record])
  {
    var removal := if a.documentId in d.outbox then [RemoveEml(a.documentId)] else [];
    ApplyAllConcat(d, removal, [PutEml(a.documentId, message), PutRecord(a.id, record)]);
    RemovalLeaves(d, a.documentId);
    var d1 := d.(outbox := d.outbox - {a.documentId});
    EffectsLeave(d1, a, record, message);
    assert d1.outbox[a.documentId := message] == d.outbox[a.documentId := message];
  }

  lemma RemovalLeaves(d: Disk, document: Id)
    ensures ApplyAll(d, if document in d.outbox then [RemoveEml(document)] else [])
      == d.(outbox := d.outbox - {document})
  {
    ApplyFirst(d, RemoveEml(document), []);
    assert document !in d.outbox ==> d.outbox - {document} == d.outbox;
  }

  lemma EffectsLeave(d: Disk, a: Approval, record: SignedApprovalRecord, message: string)
    ensures ApplyAll(d, [PutEml(a.documentId, message), PutRecord(a.id, record)])
      == d.(outbox := d.outbox[a.documentId := message], records := d.records[a.id := record])
  {
    ApplyFirst(d, PutEml(a.documentId, message), [PutRecord(a.id, record)]);
    ApplyFirst(Apply(d, PutEml(a.documentId, message)), PutRecord(a.id, record), []);
    assert [PutEml(a.documentId, message)] + [PutRecord(a.id, record)]
        == [PutEml(a.documentId, message), PutRecord(a.id, record)];
  }

  /** The files after the rest of a send, from its first receipt on. */
  ghost function AfterSend(cfg: Config, d: Disk, j: nat, stamp: Stamp): Disk
    requires j < |d.vault.approvals| && d.vault.approvals[j].id in d.records
    requires FindDocument(d.vault.documents, d.vault.approvals[j].documentId).Some?
  {
    var a := d.vault.approvals[j];
    var record := d.records[a.id];
    d.(ledger := Signed(cfg, d, GrantEntries(a, record), stamp).ledger,
       vault := GrantedVault(d.vault, j, record, stamp),
       checkpoints := d.checkpoints[a.id := FinalCheckpoint(a, record)])
  }

  /** The rest of a send with one receipt leaves the decision, its events, and both receipts. */
  lemma RestLeaves(cfg: Config, d: Disk, j: nat, stamp: Stamp)
    requires ChainFault(d.ledger, Some(cfg.deviceKey)).Pass?
    requires j < |d.vault.approvals| && FindApproval(d.vault.approvals, d.vault.approvals[j].id) == Some(j)
    requires d.vault.approvals[j].status == Pending && d.vault.approvals[j].id in d.records
    requires FindDocument(d.vault.documents, d.vault.approvals[j].documentId).Some?
    requires CheckpointShape(d, d.vault.approvals[j]) && |CheckpointOf(d, d.vault.approvals[j].id).completed| == 1
    ensures var d2 := ApplyAll(d, PlanStep1(cfg, d, d.vault.approvals[j], stamp).writes);
      ApplyAll(d2, PlanFinish(d2, d.vault.approvals[j]).writes) == AfterSend(cfg, d, j, stamp)
  {
    var a := d.vault.approvals[j];
    var record := d.records[a.id];
    var ledger, vault := Signed(cfg, d, GrantEntries(a, record), stamp).ledger, GrantedVault(d.vault, j, record, stamp);
    var c := WithReceipt(CheckpointOf(d, a.id), a.id, 1, COMMIT_STEP, Committed);
    Step1Writes(cfg, d, j, stamp);
    ApplyThree(d, ledger, vault, a.id, c);
    var d2 := d.(ledger := ledger, vault := vault, checkpoints := d.checkpoints[a.id := c]);
    assert PlanFinish(d2, a).writes == [PutCheckpoint(a.id, c.(done := true))];
    ApplyFirst(d2, PutCheckpoint(a.id, c.(done := true)), []);
    assert c.(done := true) == FinalCheckpoint(a, record);
    assert d.checkpoints[a.id := c][a.id := c.(done := true)] == d.checkpoints[a.id := c.(done := true)];
  }

  lemma ApplyThree(d: Disk, ledger: Ledger, vault: Workspace, approval: Id, c: SendCheckpoint)
    ensures ApplyAll(d, [SaveLedger(ledger), PutVault(vault)] + [PutCheckpoint(approval, c)])
      == d.(ledger := ledger, vault := vault, checkpoints := d.checkpoints[approval := c])
  {
    ApplyFirst(d, SaveLedger(ledger), [PutVault(vault), PutCheckpoint(approval, c)]);
    ApplyFirst(d.(ledger := ledger), PutVault(vault), [PutCheckpoint(approval, c)]);
    ApplyFirst(d.(ledger := ledger, vault := vault), PutCheckpoint(approval, c), []);
    assert [SaveLedger(ledger)] + [PutVault(vault), PutCheckpoint(approval, c)]
        == [SaveLedger(ledger), PutVault(vault)] + [PutCheckpoint(approval, c)];
    assert [PutVault(vault)] + [PutCheckpoint(approval, c)] == [PutVault(vault), PutCheckpoint(approval, c)];
  }

  /** The decided workspace and its events, in the terms of the whole operation. */
  lemma FinalIsSent(cfg: Config, d: Disk, j: nat, record: SignedApprovalRecord, stamp: Stamp, e: Disk)
    requires Verified(d.ledger, cfg.deviceKey) && Lifecycle(d.vault) && record.outbox.Some?
    requires j < |d.vault.approvals| && FindDocument(d.vault.documents, d.vault.approvals[j].documentId).Some?
    requires e.ledger == Signed(cfg, d, GrantEntries(d.vault.approvals[j], record), stamp).ledger
    requires e.vault == GrantedVault(d.vault, j, record, stamp)
    requires e.records == d.records[d.vault.approvals[j].id := record]
    requires e.checkpoints == d.checkpoints[d.vault.approvals[j].id := FinalCheckpoint(d.vault.approvals[j], record)]
    ensures Sent(cfg.deviceKey, d, d.vault.approvals[j], record, stamp, e)
  {
    var a := d.vault.approvals[j];
    SignedIsNow(cfg, d, GrantEntries(a, record), stamp);
    SetMoves(d.vault, FindDocument(d.vault.documents, a.documentId).value, ApprovedPendingDelivery);
    DecidedMoves(d.vault, j, Approved, stamp.at, Some(record));
  }

  lemma ApplyThreeParts(d: Disk, a: seq<Write>, b: seq<Write>, c: seq<Write>)
    ensures ApplyAll(d, a + (b + c)) == ApplyAll(ApplyAll(ApplyAll(d, a), b), c)
  {
    ApplyAllConcat(d, a, b + c);
    ApplyAllConcat(ApplyAll(d, a), b, c);
  }

  /** A pending approval whose send is where its files say, on a verified chain. */
  ghost predicate Ready(key: Key, d: Disk, j: nat) {
    && ChainFault(d.ledger, Some(key)).Pass? && Verified(d.ledger, key) && Lifecycle(d.vault)
    && j < |d.vault.approvals| && d.vault.approvals[j].status == Pending
    && FindApproval(d.vault.approvals, d.vault.approvals[j].id) == Some(j)
    && FindDocument(d.vault.documents, d.vault.approvals[j].documentId).Some?
    && CheckpointShape(d, d.vault.approvals[j]) && |CheckpointOf(d, d.vault.approvals[j].id).completed| <= 1
  }

  lemma SendingIsReady(key: Key, d: Disk, j: nat, revoking: set<Id>)
    requires Sending(key, d, j, revoking)
    ensures Ready(key, d, j)
  {
    SendingFacts(key, d, j, revoking);
    FaultFreeIffVerified(d.ledger, Some(key));
  }

  lemma SendAfterFirst(cfg: Config, d: Disk, a: Approval, kernel: Option<KernelRun>, date: string, stamp: Stamp, d1: Disk)
    requires PlanSend(cfg, d, a, kernel, date, stamp).outcome.Done?
    requires d1 == ApplyAll(d, PlanStep0(d, a, kernel, MessageFor(d.vault, a.documentId, date)).writes)
    ensures var d2 := ApplyAll(d1, PlanStep1(cfg, d1, a, stamp).writes);
      ApplyAll(d, PlanSend(cfg, d, a, kernel, date, stamp).writes) == ApplyAll(d2, PlanFinish(d2, a).writes)
  {
    SendIsThreeParts(cfg, d, a, kernel, date, stamp);
    var step1 := PlanStep1(cfg, d1, a, stamp).writes;
    ApplyThreeParts(d, PlanStep0(d, a, kernel, MessageFor(d.vault, a.documentId, date)).writes,
                    step1, PlanFinish(ApplyAll(d1, step1), a).writes);
  }

  /** A send whose first receipt is there goes on from the files as they are. */
  lemma ReplayLeaves(cfg: Config, d: Disk, j: nat, kernel: Option<KernelRun>, date: string, stamp: Stamp)
    requires Ready(cfg.deviceKey, d, j) && |CheckpointOf(d, d.vault.approvals[j].id).completed| == 1
    requires PlanSend(cfg, d, d.vault.approvals[j], kernel, date, stamp).outcome.Done?
    ensures ApplyAll(d, PlanSend(cfg, d, d.vault.approvals[j], kernel, date, stamp).writes) == AfterSend(cfg, d, j, stamp)
  {
    var a := d.vault.approvals[j];
    FirstStepReplays(d, a, kernel, MessageFor(d.vault, a.documentId, date));
    SendAfterFirst(cfg, d, a, kernel, date, stamp, d);
    RestLeaves(cfg, d, j, stamp);
  }

  /** Any other send goes on from the files its first step leaves. */
  lemma NewSendLeaves(cfg: Config, d: Disk, j: nat, run: KernelRun, date: string, stamp: Stamp)
    requires Ready(cfg.deviceKey, d, j) && |CheckpointOf(d, d.vault.approvals[j].id).completed| == 0
    requires PlanSend(cfg, d, d.vault.approvals[j], Some(run), date, stamp).outcome.Done?
    ensures var a := d.vault.approvals[j];
      ApplyAll(d, PlanSend(cfg, d, a, Some(run), date, stamp).writes)
        == AfterSend(cfg, AfterFirstStep(d, a, run, MessageFor(d.vault, a.documentId, date)), j, stamp)
  {
    var a := d.vault.approvals[j];
    var message := MessageFor(d.vault, a.documentId, date);
    var d1 := AfterFirstStep(d, a, run, message);
    FirstStepLeaves(d, a, run, message);
    FirstStepReady(cfg.deviceKey, d, j, run, message);
    SendAfterFirst(cfg, d, a, Some(run), date, stamp, d1);
    RestLeaves(cfg, d1, j, stamp);
  }

  /** After the first step the send is ready with its receipt. */
  lemma FirstStepReady(key: Key, d: Disk, j: nat, run: KernelRun, message: string)
    requires Ready(key, d, j) && |CheckpointOf(d, d.vault.approvals[j].id).completed| == 0
    ensures var d1 := AfterFirstStep(d, d.vault.approvals[j], run, message);
      Ready(key, d1, j) && |CheckpointOf(d1, d.vault.approvals[j].id).completed| == 1
  {
  }

  /** The files after a send are those of its decision, under the record that was there or that it wrote. */
  lemma AfterSendIsSent(cfg: Config, d: Disk, j: nat, stamp: Stamp)
    requires Ready(cfg.deviceKey, d, j) && |CheckpointOf(d, d.vault.approvals[j].id).completed| == 1
    ensures var a, e := d.vault.approvals[j], AfterSend(cfg, d, j, stamp);
      e.outbox == d.outbox && Sent(cfg.deviceKey, d, a, d.records[a.id], stamp, e)
  {
    var a := d.vault.approvals[j];
    assert d.records[a.id := d.records[a.id]] == d.records;
    FinalIsSent(cfg, d, j, d.records[a.id], stamp, AfterSend(cfg, d, j, stamp));
  }

  lemma NewSendIsSent(cfg: Config, d: Disk, j: nat, run: KernelRun, message: string, stamp: Stamp)
    requires Ready(cfg.deviceKey, d, j) && |CheckpointOf(d, d.vault.approvals[j].id).completed| == 0
    ensures var a := d.vault.approvals[j];
      var d1 := AfterFirstStep(d, a, run, message);
      && Ready(cfg.deviceKey, d1, j)
      && a.id in d1.records
      && var e := AfterSend(cfg, d1, j, stamp);
         e.outbox == d.outbox[a.documentId := message]
         && Sent(cfg.deviceKey, d, a, RecordOf(run, a.documentId, message), stamp, e)
  {
    var a := d.vault.approvals[j];
    var record := RecordOf(run, a.documentId, message);
    var d1 := AfterFirstStep(d, a, run, message);
    FirstStepReady(cfg.deviceKey, d, j, run, message);
    assert d1.checkpoints[a.id := FinalCheckpoint(a, record)] == d.checkpoints[a.id := FinalCheckpoint(a, record)];
    FinalIsSent(cfg, d, j, record, stamp, AfterSend(cfg, d1, j, stamp));
  }

  lemma ReadySendLeaves(cfg: Config, d: Disk, op: Op, j: nat, i: nat)
    requires Ready(cfg.deviceKey, d, j) && op.Approve? && op.approval == d.vault.approvals[j].id
    requires FindDocument(d.vault.documents, d.vault.approvals[j].documentId) == Some(i)
    requires PlanSend(cfg, d, d.vault.approvals[j], op.kernel, op.date, op.stamp).outcome.Done?
    requires |CheckpointOf(d, op.approval).completed| == 0 ==> op.kernel.Some?
    ensures GrantLeavesFor(cfg.deviceKey, d, op, d.vault.approvals[j], d.vault.documents[i],
                           ApplyAll(d, PlanSend(cfg, d, d.vault.approvals[j], op.kernel, op.date, op.stamp).writes))
  {
    if |CheckpointOf(d, op.approval).completed| == 1 {
      ReplayLeaves(cfg, d, j, op.kernel, op.date, op.stamp);
      ReplayGrants(cfg, d, op, j, i);
    } else {
      NewSendLeaves(cfg, d, j, op.kernel.value, op.date, op.stamp);
      NewSendGrants(cfg, d, op, j, i);
    }
  }

  lemma ReplayGrants(cfg: Config, d: Disk, op: Op, j: nat, i: nat)
    requires Ready(cfg.deviceKey, d, j) && op.Approve? && op.approval == d.vault.approvals[j].id
    requires FindDocument(d.vault.documents, d.vault.approvals[j].documentId) == Some(i)
    requires |CheckpointOf(d, op.approval).completed| == 1
    ensures GrantLeavesFor(cfg.deviceKey, d, op, d.vault.approvals[j], d.vault.documents[i], AfterSend(cfg, d, j, op.stamp))
  {
    AfterSendIsSent(cfg, d, j, op.stamp);
  }

  lemma NewSendGrants(cfg: Config, d: Disk, op: Op, j: nat, i: nat)
    requires Ready(cfg.deviceKey, d, j) && op.Approve? && op.approval == d.vault.approvals[j].id
    requires FindDocument(d.vault.documents, d.vault.approvals[j].documentId) == Some(i)
    requires |CheckpointOf(d, op.approval).completed| == 0 && op.kernel.Some?
    ensures var message := MessageFor(d.vault, d.vault.approvals[j].documentId, op.date);
      var d1 := AfterFirstStep(d, d.vault.approvals[j], op.kernel.value, message);
      Ready(cfg.deviceKey, d1, j) && op.approval in d1.records
      && GrantLeavesFor(cfg.deviceKey, d, op, d.vault.approvals[j], d.vault.documents[i], AfterSend(cfg, d1, j, op.stamp))
  {
    NewSendIsSent(cfg, d, j, op.kernel.value, MessageFor(d.vault, d.vault.approvals[j].documentId, op.date), op.stamp);
    MessageIsAddressed(d.vault, i, op.date);
  }

  /** A grant that is done had its receipt or its kernel run. */
  lemma DoneGrantIsReady(cfg: Config, d: Disk, op: Op, revoking: set<Id>) returns (j: nat)
    requires Inv(cfg.deviceKey, d, revoking) && op.Approve? && PlanOf(cfg, d, op).outcome.Done?
    ensures Ready(cfg.deviceKey, d, j) && d.vault.approvals[j].id == op.approval
    ensures PlanOf(cfg, d, op) == PlanSend(cfg, d, d.vault.approvals[j], op.kernel, op.date, op.stamp)
    ensures |CheckpointOf(d, op.approval).completed| == 0 ==> op.kernel.Some?
  {
    ApproveGuard(cfg, d, op);
    ApproveSucceedsExactly(cfg, d, op, revoking);
    j := FindApproval(d.vault.approvals, op.approval).value;
    SendingIsReady(cfg.deviceKey, d, j, revoking);
  }

  lemma GrantLeavesItsSend(cfg: Config, d: Disk, op: Op, revoking: set<Id>)
    requires Inv(cfg.deviceKey, d, revoking) && op.Approve? && PlanOf(cfg, d, op).outcome.Done?
    ensures GrantLeaves(cfg.deviceKey, d, op, Completed(cfg, d, op))
  {
    var j := DoneGrantIsReady(cfg, d, op, revoking);
    var i := FindDocument(d.vault.documents, d.vault.approvals[j].documentId).value;
    ReadySendLeaves(cfg, d, op, j, i);
    GrantLeavesOne(cfg.deviceKey, d, op, j, i, Completed(cfg, d, op));
  }

  lemma GrantLeavesOne(key: Key, d: Disk, op: Op, j: nat, i: nat, e: Disk)
    requires op.Approve? && j < |d.vault.approvals| && i < |d.vault.documents|
    requires GrantLeavesFor(key, d, op, d.vault.approvals[j], d.vault.documents[i], e)
    ensures GrantLeaves(key, d, op, e)
  {
    assert d.vault.approvals[j] in d.vault.approvals && d.vault.documents[i] in d.vault.documents;
  }

  /**
    The message a new grant writes is the one composed for its document and the
    customer that document names, and a reader finds that customer's name and
    address on it.
  */
  lemma GrantedMessageIsAddressed(cfg: Config, d: Disk, op: Op, j: nat, i: nat, customer: Option<Customer>, revoking: set<Id>)
    requires Inv(cfg.deviceKey, d, revoking) && op.Approve? && PlanOf(cfg, d, op).outcome.Done?
    requires |CheckpointOf(d, op.approval).completed| == 0
    requires j < |d.vault.approvals| && d.vault.approvals[j].id == op.approval
    requires i < |d.vault.documents| && d.vault.documents[i].id == d.vault.approvals[j].documentId
    requires RecipientOf(d.vault, d.vault.documents[i], customer)
    ensures var x, e := d.vault.documents[i], Completed(cfg, d, op);
      && x.id in e.outbox && e.outbox[x.id] == Compose.Message(d.vault.venture, customer, x, op.date)
      && (Compose.Unbroken(op.date) ==>
            var read := Compose.ReadMessage(e.outbox[x.id]);
            read.Some? && Compose.ReadsAs(read.value.headers, Compose.TEXTS, d.vault.venture, customer, x, op.date))
  {
    var k := DoneGrantIsReady(cfg, d, op, revoking);
    var x := d.vault.documents[i];
    FindApprovalAt(d.vault, j);
    FindDocumentAt(d.vault.documents, i);
    ReadySendLeaves(cfg, d, op, k, i);
    MessageIsRecipients(d.vault, x, op.date, Completed(cfg, d, op).outbox[x.id], customer);
  }

  lemma MessageIsRecipients(vault: Workspace, x: Document, date: string, message: string, customer: Option<Customer>)
    requires IsMessageOf(vault, x, date, message) && RecipientOf(vault, x, customer)
    ensures message == Compose.Message(vault.venture, customer, x, date)
    ensures Compose.Unbroken(date) ==>
      var read := Compose.ReadMessage(message);
      read.Some? && Compose.ReadsAs(read.value.headers, Compose.TEXTS, vault.venture, customer, x, date)
  {
    var other :| RecipientOf(vault, x, other) && message == Compose.Message(vault.venture, other, x, date);
    RecipientIsUnique(vault, x, customer, other);
    if Compose.Unbroken(date) {
      Compose.FieldsReadBack(vault.venture, customer, x, date);
    }
  }

  // ------------------------------------------------------- the revocation

  lemma RevocationLeaves(cfg: Config, d: Disk, op: Op, revoking: set<Id>)
    requires Inv(cfg.deviceKey, d, revoking) && op.RevokeDelivery? && PlanOf(cfg, d, op).outcome.Done?
    ensures Leaves(cfg.deviceKey, d, op, Completed(cfg, d, op))
  {
    DoneRevokeGuard(cfg, d, op);
    RevokeResult(cfg, d, op, revoking);
    LastOutboxFound(d.vault.approvals, op.document);
    SignedIsNow(cfg, d, [RevokedEntry(d.vault, op.document)], op.stamp);
    SetMoves(d.vault, FindDocument(d.vault.documents, op.document).value, Revoked);
  }

  /**
    What every completed operation leaves: its own change to the workspace, its
    own events, its own files, and everything else as it was.
  */
  lemma CompletedLeavesExactly(cfg: Config, d: Disk, op: Op, revoking: set<Id>)
    requires Inv(cfg.deviceKey, d, revoking) && PlanOf(cfg, d, op).outcome.Done?
    ensures Leaves(cfg.deviceKey, d, op, Completed(cfg, d, op))
  {
    if op.Approve? {
      GrantLeavesItsSend(cfg, d, op, revoking);
    } else if op.RevokeDelivery? {
      RevocationLeaves(cfg, d, op, revoking);
    } else if op.Export? {
      var entries := [AuditEntry(WorkspaceExport, WorkspaceAll, Empty)];
      CommitLeaves(cfg, d, d.vault, entries, op.stamp);
      SignedIsNow(cfg, d, entries, op.stamp);
    } else {
      CommitOnlyLeaves(cfg, d, op);
    }
  }

  // ---------------------------------------------------------------- the failures

  predicate Refuses(policy: Policy, op: Op) {
    match op
    case SetVenture(_, _, _) => !policy.updateVenture
    case AddCustomer(_, _, _, _, _) => !policy.createCustomer
    case CreateDocument(_, kind, _, _, _, _, _) => if kind == Offer then !policy.draftOffer else !policy.draftInvoice
    case RequestSend(_, _, _) => !policy.sendAllowed || !policy.sendRequiresApproval
    case _ => false
  }

  /** What an operation names is not in the workspace. */
  predicate NamesNothing(vault: Workspace, op: Op) {
    match op
    case DraftAssistant(customer, _, _, _) => FindCustomer(vault.customers, customer).None?
    case CreateDocument(_, _, customer, _, _, _, _) => FindCustomer(vault.customers, customer).None?
    case RequestSend(document, _, _) => StatusOf(vault, document).None?
    case RevokeDelivery(document, _) => StatusOf(vault, document).None?
    case ConfirmDelivery(document, _) => StatusOf(vault, document).None?
    case Approve(approval, _, _, _) => FindApproval(vault.approvals, approval).None?
    case Reject(approval, _) => FindApproval(vault.approvals, approval).None?
    case _ => false
  }

  /** A limit is reached, something is missing, or what the operation names is in another state. */
  predicate Unfit(vault: Workspace, op: Op) {
    match op
    case AddCustomer(_, _, _, _, _) => |vault.customers| >= 500
    case DraftAssistant(_, _, provider, _) => vault.venture.None? || provider.None?
    case CreateDocument(_, kind, _, amountCents, _, _, _) =>
      vault.venture.None? || |vault.documents| >= 2000 || (kind == Invoice && amountCents.None?)
    case RequestSend(document, _, _) => StatusOf(vault, document) !in {None, Some(Draft)}
    case RevokeDelivery(document, _) => StatusOf(vault, document) !in {None, Some(ApprovedPendingDelivery)}
    case ConfirmDelivery(document, _) => StatusOf(vault, document) !in {None, Some(ApprovedPendingDelivery)}
    case Approve(approval, _, _, _) => FindApproval(vault.approvals, approval).Some? && !PendingApprovalOf(vault, approval)
    case Reject(approval, _) => FindApproval(vault.approvals, approval).Some? && !PendingApprovalOf(vault, approval)
    case _ => false
  }

  predicate FailsFor(cfg: Config, d: Disk, op: Op, e: OpError) {
    match e
    case PolicyDenied => Refuses(cfg.policy, op)
    case NotFound => NamesNothing(d.vault, op)
    case Invalid => Unfit(d.vault, op)
    case KernelFailed =>
      && op.Approve? && op.kernel.None?
      && PendingApprovalOf(d.vault, op.approval) && |CheckpointOf(d, op.approval).completed| == 0
    case _ => false
  }

  /** What a failed operation leaves: everything, but for the orphan message of an approval whose kernel chain failed. */
  ghost predicate FailureLeaves(d: Disk, op: Op, error: OpError, e: Disk) {
    if error.KernelFailed? then
      op.Approve? && exists a <- d.vault.approvals :: a.id == op.approval && e == d.(outbox := d.outbox - {a.documentId})
    else e == d
  }

  lemma CommitFails(cfg: Config, d: Disk, op: Op)
    requires ChainFault(d.ledger, Some(cfg.deviceKey)).Pass? && Lifecycle(d.vault) && CommitOnly(op)
    requires PlanOf(cfg, d, op).outcome.Failed?
    ensures FailsFor(cfg, d, op, PlanOf(cfg, d, op).outcome.error) && Completed(cfg, d, op) == d
  {
    CommitShape(cfg, d, op);
    if op.Reject? {
      PendingMeansGuard(d.vault, op.approval);
    }
  }

  lemma RevokeFails(cfg: Config, d: Disk, op: Op, revoking: set<Id>)
    requires Inv(cfg.deviceKey, d, revoking) && op.RevokeDelivery? && PlanOf(cfg, d, op).outcome.Failed?
    ensures FailsFor(cfg, d, op, PlanOf(cfg, d, op).outcome.error) && Completed(cfg, d, op) == d
  {
    FaultFreeIffVerified(d.ledger, Some(cfg.deviceKey));
    OperationSucceedsExactly(cfg, d, op, revoking);
    NothingToRevoke(cfg, d, op);
  }

  /** An approval that may be decided fails in its kernel chain only, and has removed the orphan of an earlier attempt. */
  lemma FailedGrant(cfg: Config, d: Disk, op: Op, revoking: set<Id>)
    requires Inv(cfg.deviceKey, d, revoking) && op.Approve? && PlanOf(cfg, d, op).outcome.Failed?
    requires DecisionGuard(d.vault, op.approval).Pass?
    ensures var a := d.vault.approvals[FindApproval(d.vault.approvals, op.approval).value];
      && PlanOf(cfg, d, op).outcome == Failed(KernelFailed)
      && op.kernel.None? && |CheckpointOf(d, op.approval).completed| == 0
      && PlanOf(cfg, d, op).writes == (if a.documentId in d.outbox then [RemoveEml(a.documentId)] else [])
  {
    var j := FindApproval(d.vault.approvals, op.approval).value;
    FailedSendFacts(cfg, d, op, j, revoking);
    FailedSendRemoves(cfg, d, op, d.vault.approvals[j]);
    SendSafe(cfg, d, j, op.kernel, op.date, op.stamp, revoking);
  }

  lemma FailedDecision(cfg: Config, d: Disk, op: Op)
    requires Lifecycle(d.vault) && op.Approve? && DecisionGuard(d.vault, op.approval).Fail?
    ensures PlanOf(cfg, d, op) == Plan([], Failed(DecisionGuard(d.vault, op.approval).error))
    ensures FailsFor(cfg, d, op, DecisionGuard(d.vault, op.approval).error)
  {
    PendingMeansGuard(d.vault, op.approval);
  }

  lemma ApproveFails(cfg: Config, d: Disk, op: Op, revoking: set<Id>)
    requires Inv(cfg.deviceKey, d, revoking) && op.Approve? && PlanOf(cfg, d, op).outcome.Failed?
    ensures FailsFor(cfg, d, op, PlanOf(cfg, d, op).outcome.error)
    ensures FailureLeaves(d, op, PlanOf(cfg, d, op).outcome.error, Completed(cfg, d, op))
  {
    if DecisionGuard(d.vault, op.approval).Pass? {
      FailedGrant(cfg, d, op, revoking);
      RemovalLeaves(d, d.vault.approvals[FindApproval(d.vault.approvals, op.approval).value].documentId);
    } else {
      FailedDecision(cfg, d, op);
    }
  }

  /** Every failure names what an owner can see is missing, and leaves the files as they were. */
  lemma FailuresAreTrue(cfg: Config, d: Disk, op: Op, revoking: set<Id>)
    requires Inv(cfg.deviceKey, d, revoking) && PlanOf(cfg, d, op).outcome.Failed?
    ensures FailsFor(cfg, d, op, PlanOf(cfg, d, op).outcome.error)
    ensures FailureLeaves(d, op, PlanOf(cfg, d, op).outcome.error, Completed(cfg, d, op))
  {
    FaultFreeIffVerified(d.ledger, Some(cfg.deviceKey));
    if op.Approve? {
      ApproveFails(cfg, d, op, revoking);
    } else if op.RevokeDelivery? {
      RevokeFails(cfg, d, op, revoking);
    } else if op.Export? {
      OperationSucceedsExactly(cfg, d, op, revoking);
    } else {
      CommitFails(cfg, d, op);
    }
  }

  // ---------------------------------------------------------------- the names

  lemma WorkflowIdIsPlain(approval: Id)
    ensures WF.NUL !in WorkflowId(approval)
  {
    assert forall c <- Decimal(approval) :: IsDigit(c);
    assert WF.NUL !in "send-";
  }

  /** Two steps of any two sends share their idempotency key exactly when they are the same step of the same approval. */
  lemma SendKeysFixSteps(a: Id, i: nat, name: string, b: Id, j: nat, name': string)
    ensures WorkflowId(a) == WorkflowId(b) <==> a == b
    ensures WF.StepIdempotencyKey(WorkflowId(a), i, name) == WF.StepIdempotencyKey(WorkflowId(b), j, name')
      <==> a == b && i == j && name == name'
  {
    if WorkflowId(a) == WorkflowId(b) {
      assert Decimal(a) == WorkflowId(a)[5..] == WorkflowId(b)[5..] == Decimal(b);
      DecimalInjective(a, b);
    }
    WorkflowIdIsPlain(a);
    WorkflowIdIsPlain(b);
    WF.NulFreeNestsNothing(WorkflowId(a), WorkflowId(b));
    WF.NulFreeNestsNothing(WorkflowId(b), WorkflowId(a));
    if WF.StepIdempotencyKey(WorkflowId(a), i, name) == WF.StepIdempotencyKey(WorkflowId(b), j, name') {
      WF.KeyFixesStep(WorkflowId(a), i, name, WorkflowId(b), j, name');
    }
  }
}
