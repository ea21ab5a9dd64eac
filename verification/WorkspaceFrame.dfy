/** What an operation may change, wherever it is interrupted. */
module WorkspaceFrame {
  import opened Wrappers
  import opened AuditLedger
  import opened WorkspaceTypes
  import opened WorkspaceOps
  import opened Integrity
  import opened WorkspaceInvariant
  import opened WorkspaceSafety
  import opened WorkspaceOpSafety
  import WF = Workflow

  /** Approvals are only added, and each keeps its id and its document. */
  ghost predicate Keeps(before: Workspace, after: Workspace) {
    && |before.approvals| <= |after.approvals|
    && forall j | 0 <= j < |before.approvals| ::
         && after.approvals[j].id == before.approvals[j].id
         && after.approvals[j].documentId == before.approvals[j].documentId
  }

  /** The action of the event that stands for `op`, and the resource of all its events. */
  function ActionOf(op: Op): Action {
    match op
    case SetVenture(_, _, _) => VentureUpdate
    case AddCustomer(_, _, _, _, _) => CustomerCreate
    case DraftAssistant(_, _, _, _) => ModelDrafted
    case CreateDocument(_, _, _, _, _, _, _) => DocumentDraft
    case RequestSend(_, _, _) => ApprovalRequested
    case Approve(_, _, _, _) => ApprovalGranted
    case Reject(_, _) => ApprovalRejected
    case RevokeDelivery(_, _) => EffectRevoked
    case ConfirmDelivery(_, _) => DeliveryConfirmed
    case Export(_) => WorkspaceExport
  }

  function DecidedDocument(vault: Workspace, approval: Id): Resource {
    var j := FindApproval(vault.approvals, approval);
    if j.Some? then DocumentResource(vault.approvals[j.value].documentId) else WorkspaceAll
  }

  function ResourceOf(d: Disk, op: Op): Resource {
    match op
    case SetVenture(_, _, _) => VentureProfile
    case AddCustomer(id, _, _, _, _) => CustomerResource(id)
    case DraftAssistant(customer, _, _, _) => CustomerResource(customer)
    case CreateDocument(id, _, _, _, _, _, _) => DocumentResource(id)
    case RequestSend(document, _, _) => DocumentResource(document)
    case Approve(approval, _, _, _) => DecidedDocument(d.vault, approval)
    case Reject(approval, _) => DecidedDocument(d.vault, approval)
    case RevokeDelivery(document, _) => DocumentResource(document)
    case ConfirmDelivery(document, _) => DocumentResource(document)
    case Export(_) => WorkspaceAll
  }

  /** The events the self-audit can report as torn. */
  predicate CanTear(action: Action) { action in {CustomerCreate, ApprovalGranted, EffectRevoked, DeliveryConfirmed} }

  predicate EntryOf(d: Disk, op: Op, e: AuditEntry) {
    e.resource == ResourceOf(d, op) && (e.action == ActionOf(op) || !CanTear(e.action))
  }

  /** The chain grows only by events of `op`. */
  ghost predicate Signs(d: Disk, op: Op, ledger: Ledger) {
    d.ledger <= ledger && forall i | |d.ledger| <= i < |ledger| :: EntryOf(d, op, ledger[i].body.content)
  }

  /** No event becomes torn: customers stay, and a granted, revoked or delivered document stays that. */
  ghost predicate Progress(before: Workspace, after: Workspace) {
    && (forall id :: FindCustomer(before.customers, id).Some? ==> FindCustomer(after.customers, id).Some?)
    && (forall id :: Advances(StatusOf(before, id), StatusOf(after, id)))
  }

  predicate Advances(before: Option<DocumentStatus>, after: Option<DocumentStatus>) {
    && (before == Some(Revoked) ==> after == Some(Revoked))
    && (before == Some(Delivered) ==> after == Some(Delivered))
    && (before.Some? && Granted(before.value) ==> after.Some? && Granted(after.value))
  }

  /** The approval whose execute step `op` may run: it has no receipt yet. */
  function Executing(d: Disk, op: Op): Option<Approval> {
    if !op.Approve? || FindApproval(d.vault.approvals, op.approval).None? then None
    else
      var a := d.vault.approvals[FindApproval(d.vault.approvals, op.approval).value];
      if a.status == Pending && |CheckpointOf(d, a.id).completed| == 0 then Some(a) else None
  }

  /** What one durable write of `op` may do to the files `d` it started from. */
  ghost predicate Allowed(d: Disk, op: Op, w: Write) {
    match w
    case SaveLedger(ledger) => Signs(d, op, ledger)
    case PutVault(vault) => Keeps(d.vault, vault) && Progress(d.vault, vault)
    case PutEml(document, _) => Executing(d, op).Some? && document == Executing(d, op).value.documentId
    case PutRecord(approval, _) => Executing(d, op).Some? && approval == Executing(d, op).value.id
    case RemoveEml(document) =>
      || (op.RevokeDelivery? && document == op.document)
      || (Executing(d, op).Some? && document == Executing(d, op).value.documentId)
    case PutCheckpoint(approval, c) => op.Approve? && CheckpointOf(d, approval).completed <= c.completed
  }

  /** What `op`, interrupted anywhere, may have done to the files `d`. */
  ghost predicate Later(d: Disk, op: Op, e: Disk) {
    && Signs(d, op, e.ledger)
    && Keeps(d.vault, e.vault)
    && Progress(d.vault, e.vault)
    && (forall id :: CheckpointOf(d, id).completed <= CheckpointOf(e, id).completed)
    && (forall id | id in d.records :: (Executing(d, op).Some? && id == Executing(d, op).value.id)
                                       || (id in e.records && e.records[id] == d.records[id]))
    && (forall id | id in d.outbox :: (Executing(d, op).Some? && id == Executing(d, op).value.documentId)
                                      || (op.RevokeDelivery? && id == op.document)
                                      || (id in e.outbox && e.outbox[id] == d.outbox[id]))
    && (forall id | id in e.outbox :: (Executing(d, op).Some? && id == Executing(d, op).value.documentId)
                                      || (id in d.outbox && e.outbox[id] == d.outbox[id]))
  }

  ghost predicate AllAllowed(d: Disk, op: Op, writes: seq<Write>) { forall w <- writes :: Allowed(d, op, w) }

  lemma AllAllowedConcat(d: Disk, op: Op, a: seq<Write>, b: seq<Write>)
    requires AllAllowed(d, op, a) && AllAllowed(d, op, b)
    ensures AllAllowed(d, op, a + b)
  {
  }

  lemma {:induction false} AllowedGivesLater(d: Disk, op: Op, e: Disk, writes: seq<Write>)
    requires Later(d, op, e) && AllAllowed(d, op, writes)
    ensures Later(d, op, ApplyAll(e, writes))
    decreases |writes|
  {
    if writes != [] {
      assert Allowed(d, op, writes[0]);
      OneAllowedWrite(d, op, e, writes[0]);
      assert AllAllowed(d, op, writes[1..]);
      AllowedGivesLater(d, op, Apply(e, writes[0]), writes[1..]);
    }
  }

  lemma OneAllowedWrite(d: Disk, op: Op, e: Disk, w: Write)
    requires Later(d, op, e) && Allowed(d, op, w)
    ensures Later(d, op, Apply(e, w))
  {
  }

  lemma ThenAllowed(d: Disk, op: Op, d0: Disk, first: Plan, next: Disk -> Plan)
    requires AllAllowed(d, op, first.writes)
    requires first.outcome.Done? ==> AllAllowed(d, op, next(ApplyAll(d0, first.writes)).writes)
    ensures AllAllowed(d, op, Then(d0, first, next).writes)
  {
  }

  lemma CommitAllowed(cfg: Config, d: Disk, op: Op, d1: Disk, vault: Workspace, entries: seq<AuditEntry>, stamp: Stamp)
    requires Verified(d.ledger, cfg.deviceKey) && d1.ledger == d.ledger
    requires Keeps(d.vault, vault) && Progress(d.vault, vault)
    requires forall e <- entries :: EntryOf(d, op, e)
    ensures AllAllowed(d, op, PlanCommit(cfg, d1, vault, entries, stamp).writes)
    ensures AllAllowed(d, op, PlanAppend(cfg, d1, entries, stamp).writes)
  {
    AppendAllExtends(d.ledger, entries, stamp.firstEventId, stamp.at, cfg.deviceKey);
    var ledger := AppendedAll(d.ledger, entries, stamp.firstEventId, stamp.at, cfg.deviceKey);
    forall i | |d.ledger| <= i < |ledger| ensures EntryOf(d, op, ledger[i].body.content) {
      assert ledger[|d.ledger| + (i - |d.ledger|)].body.content == entries[i - |d.ledger|];
    }
  }

  lemma Step0Allowed(d: Disk, op: Op, j: nat, message: string)
    requires op.Approve? && j < |d.vault.approvals| && FindApproval(d.vault.approvals, op.approval) == Some(j)
    requires d.vault.approvals[j].status == Pending
    ensures AllAllowed(d, op, PlanStep0(d, d.vault.approvals[j], op.kernel, message).writes)
  {
    var a := d.vault.approvals[j];
    if |CheckpointOf(d, a.id).completed| == 0 {
      var execute := PlanExecute(d, a, op.kernel, message);
      ExecuteAllowed(d, op, j, message);
      if execute.outcome.Done? {
        var c := WithReceipt(CheckpointOf(d, a.id), a.id, 0, EXECUTE_STEP,
                             RecordBytes(ExecutedRecord(a, op.kernel.value, message)));
        AllAllowedConcat(d, op, execute.writes, [PutCheckpoint(a.id, c)]);
      }
    }
  }

  /** The execute step of a send without a receipt writes that send's own files. */
  lemma ExecuteAllowed(d: Disk, op: Op, j: nat, message: string)
    requires op.Approve? && j < |d.vault.approvals| && FindApproval(d.vault.approvals, op.approval) == Some(j)
    requires d.vault.approvals[j].status == Pending && |CheckpointOf(d, d.vault.approvals[j].id).completed| == 0
    ensures AllAllowed(d, op, PlanExecute(d, d.vault.approvals[j], op.kernel, message).writes)
  {
    assert Executing(d, op) == Some(d.vault.approvals[j]);
  }

  ghost function GrantedVault(vault: Workspace, j: nat, record: SignedApprovalRecord, stamp: Stamp): Workspace
    requires j < |vault.approvals| && FindDocument(vault.documents, vault.approvals[j].documentId).Some?
  {
    var a := vault.approvals[j];
    Decided(vault, j, FindDocument(vault.documents, a.documentId).value,
            a.(status := Approved, decidedAt := Some(stamp.at), evidence := Some(record)), ApprovedPendingDelivery)
  }

  lemma CommitDecisionShape(cfg: Config, d: Disk, j: nat, stamp: Stamp)
    requires j < |d.vault.approvals| && FindApproval(d.vault.approvals, d.vault.approvals[j].id) == Some(j)
    requires d.vault.approvals[j].status == Pending && d.vault.approvals[j].id in d.records
    requires FindDocument(d.vault.documents, d.vault.approvals[j].documentId).Some?
    ensures var a := d.vault.approvals[j];
      var record := d.records[a.id];
      PlanCommitDecision(cfg, d, a, stamp)
        == PlanCommit(cfg, d, GrantedVault(d.vault, j, record, stamp), GrantEntries(a, record), stamp)
  {
  }

  lemma GrantedProgress(vault: Workspace, j: nat, record: SignedApprovalRecord, stamp: Stamp)
    requires Lifecycle(vault) && j < |vault.approvals| && vault.approvals[j].status == Pending
    requires FindDocument(vault.documents, vault.approvals[j].documentId).Some?
    ensures Keeps(vault, GrantedVault(vault, j, record, stamp))
    ensures Progress(vault, GrantedVault(vault, j, record, stamp))
    ensures var after := GrantedVault(vault, j, record, stamp);
      forall id :: StatusOf(after, id) ==
        if id == vault.approvals[j].documentId then Some(ApprovedPendingDelivery) else StatusOf(vault, id)
  {
    var a := vault.approvals[j];
    assert InStep(vault, a);
    StatusProgress(vault, FindDocument(vault.documents, a.documentId).value, ApprovedPendingDelivery,
                   GrantedVault(vault, j, record, stamp));
  }

  lemma GrantEntriesOf(d: Disk, op: Op, j: nat, record: SignedApprovalRecord)
    requires op.Approve? && j < |d.vault.approvals| && FindApproval(d.vault.approvals, op.approval) == Some(j)
    ensures forall e <- GrantEntries(d.vault.approvals[j], record) :: EntryOf(d, op, e)
  {
  }

  lemma CommitDecisionAllowed(cfg: Config, d: Disk, op: Op, d1: Disk, j: nat)
    requires op.Approve? && Verified(d.ledger, cfg.deviceKey) && d1.ledger == d.ledger && d1.vault == d.vault
    requires Lifecycle(d.vault) && j < |d.vault.approvals| && d.vault.approvals[j].status == Pending
    requires FindApproval(d.vault.approvals, op.approval) == Some(j) && op.approval in d1.records
    requires FindDocument(d.vault.documents, d.vault.approvals[j].documentId).Some?
    ensures AllAllowed(d, op, PlanCommitDecision(cfg, d1, d.vault.approvals[j], op.stamp).writes)
  {
    var record := d1.records[op.approval];
    CommitDecisionShape(cfg, d1, j, op.stamp);
    GrantedProgress(d.vault, j, record, op.stamp);
    GrantEntriesOf(d, op, j, record);
    CommitAllowed(cfg, d, op, d1, GrantedVault(d.vault, j, record, op.stamp),
                  GrantEntries(d.vault.approvals[j], record), op.stamp);
  }

  lemma Receipt1Allowed(d: Disk, op: Op, d1: Disk)
    requires op.Approve? && CheckpointOf(d, op.approval).completed <= CheckpointOf(d1, op.approval).completed
    ensures AllAllowed(d, op, [PutCheckpoint(
      op.approval, WithReceipt(CheckpointOf(d1, op.approval), op.approval, 1, COMMIT_STEP, Committed))])
  {
  }

  lemma Step1Shape(cfg: Config, d: Disk, a: Approval, stamp: Stamp)
    ensures var commit := PlanCommitDecision(cfg, d, a, stamp);
      var put := PutCheckpoint(a.id, WithReceipt(CheckpointOf(d, a.id), a.id, 1, COMMIT_STEP, Committed));
      PlanStep1(cfg, d, a, stamp).writes in {[], commit.writes, commit.writes + [put]}
  {
  }

  lemma PendingHasDocument(vault: Workspace, j: nat)
    requires Lifecycle(vault) && j < |vault.approvals|
    ensures FindDocument(vault.documents, vault.approvals[j].documentId).Some?
  {
    assert InStep(vault, vault.approvals[j]);
  }

  lemma Step1Allowed(cfg: Config, d: Disk, op: Op, d1: Disk, j: nat)
    requires op.Approve? && Verified(d.ledger, cfg.deviceKey) && d1.ledger == d.ledger && d1.vault == d.vault
    requires CheckpointOf(d, op.approval).completed <= CheckpointOf(d1, op.approval).completed
    requires Lifecycle(d.vault) && j < |d.vault.approvals| && d.vault.approvals[j].status == Pending
    requires FindApproval(d.vault.approvals, op.approval) == Some(j) && op.approval in d1.records
    ensures AllAllowed(d, op, PlanStep1(cfg, d1, d.vault.approvals[j], op.stamp).writes)
  {
    var a := d.vault.approvals[j];
    PendingHasDocument(d.vault, j);
    CommitDecisionAllowed(cfg, d, op, d1, j);
    var put := PutCheckpoint(a.id, WithReceipt(CheckpointOf(d1, a.id), a.id, 1, COMMIT_STEP, Committed));
    Receipt1Allowed(d, op, d1);
    AllAllowedConcat(d, op, PlanCommitDecision(cfg, d1, a, op.stamp).writes, [put]);
    Step1Shape(cfg, d1, a, op.stamp);
  }

  /** A document that is not yet granted, or is granted and only settled, may take its next status. */
  lemma StatusProgress(vault: Workspace, i: nat, status: DocumentStatus, after: Workspace)
    requires Lifecycle(vault) && i < |vault.documents| && after.customers == vault.customers
    requires after.documents == SetStatus(vault, i, status).documents
    requires Advances(Some(vault.documents[i].status), Some(status))
    ensures Progress(vault, after)
    ensures forall id :: StatusOf(after, id) == if id == vault.documents[i].id then Some(status) else StatusOf(vault, id)
  {
    FindDocumentAt(vault.documents, i);
    forall id ensures StatusOf(after, id) == if id == vault.documents[i].id then Some(status) else StatusOf(vault, id) {
      StatusAfterSet(vault, i, status, id);
    }
  }

  lemma SettledAllowed(cfg: Config, d: Disk, op: Op, d1: Disk, j: nat, revoking: set<Id>)
    requires op.Approve? && Verified(d.ledger, cfg.deviceKey) && d1.ledger == d.ledger && d1.vault == d.vault
    requires Sending(cfg.deviceKey, d1, j, revoking) && d1.vault.approvals[j].id == op.approval
    requires |CheckpointOf(d1, op.approval).completed| == 1
    requires CheckpointOf(d, op.approval).completed <= CheckpointOf(d1, op.approval).completed
    ensures var a := d1.vault.approvals[j];
      AllAllowed(d, op, Then(d1, PlanStep1(cfg, d1, a, op.stamp), d2 => PlanFinish(d2, a)).writes)
  {
    var a := d1.vault.approvals[j];
    var step1 := PlanStep1(cfg, d1, a, op.stamp);
    var d2 := ApplyAll(d1, step1.writes);
    SettlingFacts(cfg, d1, j, op.stamp, revoking);
    Step1Allowed(cfg, d, op, d1, j);
    FinishAllowed(d, op, d2, a);
    ThenAllowed(d, op, d1, step1, d2 => PlanFinish(d2, a));
  }

  lemma SettlingFacts(cfg: Config, d: Disk, j: nat, stamp: Stamp, revoking: set<Id>)
    requires Sending(cfg.deviceKey, d, j, revoking)
    requires |CheckpointOf(d, d.vault.approvals[j].id).completed| == 1
    ensures var a := d.vault.approvals[j];
      var step1 := PlanStep1(cfg, d, a, stamp);
      && FindApproval(d.vault.approvals, a.id) == Some(j)
      && a.id in d.records
      && step1.outcome.Done?
      && CheckpointOf(d, a.id).completed <= CheckpointOf(ApplyAll(d, step1.writes), a.id).completed
  {
    FindApprovalAt(d.vault, j);
    Step1Safe(cfg, d, j, stamp, revoking);
  }

  lemma FinishAllowed(d: Disk, op: Op, d2: Disk, a: Approval)
    requires op.Approve? && CheckpointOf(d, a.id).completed <= CheckpointOf(d2, a.id).completed
    ensures AllAllowed(d, op, PlanFinish(d2, a).writes)
  {
  }

  lemma SendAllowed(cfg: Config, d: Disk, op: Op, j: nat, revoking: set<Id>)
    requires Sending(cfg.deviceKey, d, j, revoking) && op.Approve?
    requires FindApproval(d.vault.approvals, op.approval) == Some(j)
    ensures AllAllowed(d, op, PlanSend(cfg, d, d.vault.approvals[j], op.kernel, op.date, op.stamp).writes)
  {
    var a := d.vault.approvals[j];
    var message := MessageFor(d.vault, a.documentId, op.date);
    var first := PlanStep0(d, a, op.kernel, message);
    var next := (d1: Disk) => Then(d1, PlanStep1(cfg, d1, a, op.stamp), d2 => PlanFinish(d2, a));
    SentFacts(cfg.deviceKey, d, j, op.kernel, message, revoking);
    Step0Allowed(d, op, j, message);
    if first.outcome.Done? {
      SettledAllowed(cfg, d, op, ApplyAll(d, first.writes), j, revoking);
    }
    ThenAllowed(d, op, d, first, next);
    SendShape(cfg, d, a, op.kernel, op.date, op.stamp);
  }

  lemma SendShape(cfg: Config, d: Disk, a: Approval, kernel: Option<KernelRun>, date: string, stamp: Stamp)
    ensures PlanSend(cfg, d, a, kernel, date, stamp).writes in {
      [],
      Then(d, PlanStep0(d, a, kernel, MessageFor(d.vault, a.documentId, date)),
           (d1: Disk) => Then(d1, PlanStep1(cfg, d1, a, stamp), d2 => PlanFinish(d2, a))).writes}
  {
  }

  lemma SentFacts(key: Key, d: Disk, j: nat, kernel: Option<KernelRun>, message: string, revoking: set<Id>)
    requires Sending(key, d, j, revoking)
    ensures var a := d.vault.approvals[j];
      var first := PlanStep0(d, a, kernel, message);
      var d1 := ApplyAll(d, first.writes);
      && Verified(d.ledger, key)
      && (first.outcome.Done? ==>
            && d1.vault == d.vault && d1.ledger == d.ledger
            && Sending(key, d1, j, revoking)
            && |CheckpointOf(d1, a.id).completed| == 1
            && CheckpointOf(d, a.id).completed <= CheckpointOf(d1, a.id).completed)
  {
    Step0Safe(key, d, j, kernel, message, revoking);
  }

  /** Every durable write of every operation is an allowed one. */
  lemma PlanAllowed(cfg: Config, d: Disk, op: Op, revoking: set<Id>)
    requires Inv(cfg.deviceKey, d, revoking)
    ensures AllAllowed(d, op, PlanOf(cfg, d, op).writes)
  {
    match op
    case Approve(approval, _, _, _) =>
      if DecisionGuard(d.vault, approval).Pass? {
        SendAllowed(cfg, d, op, FindApproval(d.vault.approvals, approval).value, revoking);
      }
    case RevokeDelivery(_, _) => RevokeAllowed(cfg, d, op, revoking);
    case Export(stamp) => ExportAllowed(cfg, d, op);
    case _ => CommitOnlyAllowed(cfg, d, op);
  }

  lemma RevokeAllowed(cfg: Config, d: Disk, op: Op, revoking: set<Id>)
    requires Inv(cfg.deviceKey, d, revoking) && op.RevokeDelivery?
    ensures AllAllowed(d, op, PlanOf(cfg, d, op).writes)
  {
    if StatusOf(d.vault, op.document) == Some(ApprovedPendingDelivery) {
      RevokeFindsItsReceipt(cfg.deviceKey, d, revoking, op.document);
      RevokeWritesAllowed(cfg, d, op, RevokedEntry(d.vault, op.document));
      RevokeShape(cfg, d, op.document, op.stamp);
    } else {
      NothingToRevoke(cfg, d, op);
    }
  }

  lemma NothingToRevoke(cfg: Config, d: Disk, op: Op)
    requires op.RevokeDelivery? && StatusOf(d.vault, op.document) != Some(ApprovedPendingDelivery)
    ensures PlanOf(cfg, d, op).writes == []
  {
  }

  lemma RevokeWritesAllowed(cfg: Config, d: Disk, op: Op, entry: AuditEntry)
    requires op.RevokeDelivery? && Verified(d.ledger, cfg.deviceKey) && Lifecycle(d.vault)
    requires StatusOf(d.vault, op.document) == Some(ApprovedPendingDelivery) && EntryOf(d, op, entry)
    ensures var removal := if op.document in d.outbox then [RemoveEml(op.document)] else [];
      var commit := PlanCommit(cfg, Apply(d, RemoveEml(op.document)), RevokedVault(d.vault, op.document), [entry], op.stamp);
      AllAllowed(d, op, removal + commit.writes)
  {
    var removal := if op.document in d.outbox then [RemoveEml(op.document)] else [];
    var d1 := Apply(d, RemoveEml(op.document));
    var vault := RevokedVault(d.vault, op.document);
    StatusProgress(d.vault, FindDocument(d.vault.documents, op.document).value, Revoked, vault);
    CommitAllowed(cfg, d, op, d1, vault, [entry], op.stamp);
    AllAllowedConcat(d, op, removal, PlanCommit(cfg, d1, vault, [entry], op.stamp).writes);
  }

  lemma ExportAllowed(cfg: Config, d: Disk, op: Op)
    requires Verified(d.ledger, cfg.deviceKey) && op.Export?
    ensures AllAllowed(d, op, PlanOf(cfg, d, op).writes)
  {
    CommitAllowed(cfg, d, op, d, d.vault, [AuditEntry(WorkspaceExport, WorkspaceAll, Empty)], op.stamp);
  }

  predicate CommitOnly(op: Op) { !op.Approve? && !op.RevokeDelivery? && !op.Export? }

  /** What the remaining operations commit. */
  ghost function NextVault(d: Disk, op: Op): Workspace
    requires CommitOnly(op)
  {
    match op
    case SetVenture(name, service, stamp) => d.vault.(version := 1, venture := Some(Venture(name, service, stamp.at)))
    case AddCustomer(id, name, email, notes, stamp) =>
      d.vault.(customers := d.vault.customers + [Customer(id, name, email, notes, stamp.at)])
    case DraftAssistant(customer, disclosure, provider, stamp) =>
      if provider.None? then d.vault
      else
        d.vault.(disclosures := d.vault.disclosures
                                + [ModelDisclosure(disclosure, stamp.at, customer, provider.value, true)])
    case CreateDocument(id, kind, customer, amountCents, title, body, stamp) =>
      d.vault.(documents := d.vault.documents + [Document(id, kind, customer, title, body, amountCents, Draft, stamp.at)])
    case RequestSend(document, id, stamp) =>
      var i := FindDocument(d.vault.documents, document);
      if i.None? then d.vault else Requested(d.vault, i.value, Approval(id, document, Pending, stamp.at, None, None))
    case Reject(approval, stamp) =>
      if DecisionGuard(d.vault, approval).Fail? then d.vault
      else
        var j := FindApproval(d.vault.approvals, approval).value;
        var a := d.vault.approvals[j];
        Decided(d.vault, j, FindDocument(d.vault.documents, a.documentId).value,
                a.(status := Rejected, decidedAt := Some(stamp.at)), RejectedDocument)
    case ConfirmDelivery(document, stamp) =>
      var i := FindDocument(d.vault.documents, document);
      if i.None? then d.vault else SetStatus(d.vault, i.value, Delivered)
  }

  /** The event the remaining operations sign. */
  ghost function CommitEntry(d: Disk, op: Op): AuditEntry
    requires CommitOnly(op)
  {
    match op
    case SetVenture(name, _, _) => AuditEntry(VentureUpdate, VentureProfile, Named(name))
    case AddCustomer(id, name, _, _, _) => AuditEntry(CustomerCreate, CustomerResource(id), Named(name))
    case DraftAssistant(customer, _, provider, _) =>
      AuditEntry(ModelDrafted, CustomerResource(customer), Drafted(if provider.Some? then provider.value else ""))
    case CreateDocument(id, kind, _, _, title, _, _) => AuditEntry(DocumentDraft, DocumentResource(id), DraftOf(kind, title))
    case RequestSend(document, id, _) => AuditEntry(ApprovalRequested, DocumentResource(document), ForApproval(id))
    case Reject(approval, _) => AuditEntry(ApprovalRejected, DecidedDocument(d.vault, approval), ForApproval(approval))
    case ConfirmDelivery(document, _) => AuditEntry(DeliveryConfirmed, DocumentResource(document), Empty)
  }

  lemma CommitEntryIsOwn(d: Disk, op: Op)
    requires CommitOnly(op)
    ensures EntryOf(d, op, CommitEntry(d, op)) && CommitEntry(d, op).action == ActionOf(op)
  {
  }

  lemma CommitShape(cfg: Config, d: Disk, op: Op)
    requires CommitOnly(op) && ChainFault(d.ledger, Some(cfg.deviceKey)).Pass?
    ensures PlanOf(cfg, d, op).outcome.Done? ==>
      PlanOf(cfg, d, op) == PlanCommit(cfg, d, NextVault(d, op), [CommitEntry(d, op)], op.stamp)
    ensures PlanOf(cfg, d, op).outcome.Failed? ==> PlanOf(cfg, d, op).writes == []
  {
  }

  lemma AppendProgress(vault: Workspace, after: Workspace)
    requires (exists c :: after.customers == vault.customers + [c]) || after.customers == vault.customers
    requires (exists x :: after.documents == vault.documents + [x]) || after.documents == vault.documents
    ensures Progress(vault, after)
  {
    forall id ensures FindCustomer(vault.customers, id).Some? ==> FindCustomer(after.customers, id).Some? {
      if after.customers != vault.customers {
        var c :| after.customers == vault.customers + [c];
        FindCustomerAppend(vault.customers, c, id);
      }
    }
    forall id ensures Advances(StatusOf(vault, id), StatusOf(after, id)) {
      if after.documents != vault.documents {
        var x :| after.documents == vault.documents + [x];
        FindDocumentAppend(vault.documents, x, id);
      }
    }
  }

  lemma NextVaultProgress(cfg: Config, d: Disk, op: Op)
    requires Lifecycle(d.vault) && CommitOnly(op) && PlanOf(cfg, d, op).writes != []
    ensures Keeps(d.vault, NextVault(d, op)) && Progress(d.vault, NextVault(d, op))
  {
    if op.RequestSend? {
      StatusProgress(d.vault, FindDocument(d.vault.documents, op.document).value, PendingApproval, NextVault(d, op));
    } else if op.Reject? {
      RejectProgress(d, op);
    } else if op.ConfirmDelivery? {
      StatusProgress(d.vault, FindDocument(d.vault.documents, op.document).value, Delivered, NextVault(d, op));
    } else {
      AppendProgress(d.vault, NextVault(d, op));
    }
  }

  lemma RejectProgress(d: Disk, op: Op)
    requires Lifecycle(d.vault) && op.Reject? && DecisionGuard(d.vault, op.approval).Pass?
    ensures Keeps(d.vault, NextVault(d, op)) && Progress(d.vault, NextVault(d, op))
  {
    var a := d.vault.approvals[FindApproval(d.vault.approvals, op.approval).value];
    assert InStep(d.vault, a);
    StatusProgress(d.vault, FindDocument(d.vault.documents, a.documentId).value, RejectedDocument, NextVault(d, op));
  }

  lemma CommitOnlyAllowed(cfg: Config, d: Disk, op: Op)
    requires Verified(d.ledger, cfg.deviceKey) && Lifecycle(d.vault) && CommitOnly(op)
    ensures AllAllowed(d, op, PlanOf(cfg, d, op).writes)
  {
    FaultFreeIffVerified(d.ledger, Some(cfg.deviceKey));
    CommitShape(cfg, d, op);
    if PlanOf(cfg, d, op).outcome.Done? {
      CommitEntryIsOwn(d, op);
      assert PlanCommit(cfg, d, NextVault(d, op), [CommitEntry(d, op)], op.stamp).writes != [];
      NextVaultProgress(cfg, d, op);
      CommitAllowed(cfg, d, op, d, NextVault(d, op), [CommitEntry(d, op)], op.stamp);
    }
  }

  lemma InterruptedLater(cfg: Config, d: Disk, op: Op, crashAfter: nat, revoking: set<Id>)
    requires Inv(cfg.deviceKey, d, revoking)
    ensures Later(d, op, Interrupted(cfg, d, op, crashAfter))
  {
    PlanAllowed(cfg, d, op, revoking);
    var writes := PlanOf(cfg, d, op).writes;
    var kept := if crashAfter < |writes| then writes[..crashAfter] else writes;
    AllowedGivesLater(d, op, d, kept);
  }
}
