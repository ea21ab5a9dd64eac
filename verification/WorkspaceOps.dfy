/**
  The operations of `apps/cli/src/workspace` as the durable writes they make.

  `PlanOf(cfg, d, op)` lists the durable writes of an uninterrupted `op` from
  the files `d`, in order, and its result.  A crash may follow any of them, so
  an interrupted operation is a prefix of its plan.  UUIDs, times and what the
  kernel chain returns are inputs of the operation.
*/
module WorkspaceOps {
  import opened Wrappers
  import opened AuditLedger
  import opened WorkspaceTypes
  import opened Strings
  import WF = Workflow
  import Compose

  // ------------------------------------------------------------------- files

  datatype Action =
    | VentureUpdate
    | CustomerCreate
    | ModelDrafted
    | DocumentDraft
    | ApprovalRequested
    | ApprovalGranted
    | CapabilityExecuted
    | FileWritten
    | ApprovalRejected
    | EffectRevoked
    | DeliveryConfirmed
    | WorkspaceExport

  datatype Resource = VentureProfile | CustomerResource(id: Id) | DocumentResource(id: Id) | WorkspaceAll

  /** The hashed payload of an event. */
  datatype Payload =
    | Empty
    | Named(name: string)
    | Drafted(providerId: string)
    | DraftOf(kind: DocumentKind, title: string)
    | ForApproval(approvalId: Id)
    | Evidence(approvalId: Id, run: KernelRun)
    | Executed(run: KernelRun)
    | Outbox(write: OutboxWrite)

  datatype AuditEntry = AuditEntry(action: Action, resource: Resource, payload: Payload)

  type Ledger = seq<AuditEvent<AuditEntry>>

  /** The output bytes of the two workflow steps. */
  datatype StepOutput = RecordBytes(record: SignedApprovalRecord) | Committed

  type SendCheckpoint = WF.Checkpoint<StepOutput>

  /** Everything durable: `records` and `checkpoints` by approval id, `outbox` by document id. */
  datatype Disk = Disk(
    ledger: Ledger,
    vault: Workspace,
    outbox: map<Id, string>,
    records: map<Id, SignedApprovalRecord>,
    checkpoints: map<Id, SendCheckpoint>)

  const EMPTY_WORKSPACE := Workspace(1, None, [], [], [], [])
  const EMPTY_DISK := Disk([], EMPTY_WORKSPACE, map[], map[], map[])

  datatype Write =
    | SaveLedger(ledger: Ledger)
    | PutVault(vault: Workspace)
    | RemoveEml(document: Id)
    | PutEml(document: Id, message: string)
    | PutRecord(approval: Id, record: SignedApprovalRecord)
    | PutCheckpoint(approval: Id, checkpoint: SendCheckpoint)

  function Apply(d: Disk, w: Write): Disk {
    match w
    case SaveLedger(ledger) => d.(ledger := ledger)
    case PutVault(vault) => d.(vault := vault)
    case RemoveEml(document) => d.(outbox := d.outbox - {document})
    case PutEml(document, message) => d.(outbox := d.outbox[document := message])
    case PutRecord(approval, record) => d.(records := d.records[approval := record])
    case PutCheckpoint(approval, checkpoint) => d.(checkpoints := d.checkpoints[approval := checkpoint])
  }

  function ApplyAll(d: Disk, writes: seq<Write>): Disk
    decreases |writes|
  {
    if writes == [] then d else ApplyAll(Apply(d, writes[0]), writes[1..])
  }

  // ----------------------------------------------------------------- lookups

  function FindCustomer(customers: seq<Customer>, id: Id): (r: Option<nat>)
    ensures r.Some? ==> r.value < |customers| && customers[r.value].id == id
    ensures r.None? ==> forall c <- customers :: c.id != id
  {
    if customers == [] then None
    else if customers[0].id == id then Some(0)
    else
      var rest := FindCustomer(customers[1..], id);
      if rest.Some? then Some(rest.value + 1) else None
  }

  function FindDocument(documents: seq<Document>, id: Id): (r: Option<nat>)
    ensures r.Some? ==> r.value < |documents| && documents[r.value].id == id
    ensures r.None? ==> forall x <- documents :: x.id != id
  {
    if documents == [] then None
    else if documents[0].id == id then Some(0)
    else
      var rest := FindDocument(documents[1..], id);
      if rest.Some? then Some(rest.value + 1) else None
  }

  function FindApproval(approvals: seq<Approval>, id: Id): (r: Option<nat>)
    ensures r.Some? ==> r.value < |approvals| && approvals[r.value].id == id
    ensures r.None? ==> forall a <- approvals :: a.id != id
  {
    if approvals == [] then None
    else if approvals[0].id == id then Some(0)
    else
      var rest := FindApproval(approvals[1..], id);
      if rest.Some? then Some(rest.value + 1) else None
  }

  /** The outbox receipt of the last approval of a document that has one. */
  function LastOutbox(approvals: seq<Approval>, document: Id): Option<OutboxWrite> {
    if approvals == [] then None
    else
      var n := |approvals| - 1;
      var a := approvals[n];
      if a.documentId == document && a.evidence.Some? && a.evidence.value.outbox.Some?
      then a.evidence.value.outbox
      else LastOutbox(approvals[..n], document)
  }

  function SetStatus(vault: Workspace, document: nat, status: DocumentStatus): Workspace
    requires document < |vault.documents|
  {
    vault.(documents := vault.documents[document := vault.documents[document].(status := status)])
  }

  // -------------------------------------------------------------- operations

  /** The verdicts of the deterministic policy engine on the workspace's own actions. */
  datatype Policy = Policy(
    updateVenture: bool,
    createCustomer: bool,
    draftOffer: bool,
    draftInvoice: bool,
    sendAllowed: bool,
    sendRequiresApproval: bool)

  datatype Config = Config(deviceKey: Key, policy: Policy)

  /** Event ids from `firstEventId` on, at time `at`. */
  datatype Stamp = Stamp(firstEventId: Id, at: int)

  datatype Op =
    | SetVenture(name: string, service: string, stamp: Stamp)
    | AddCustomer(id: Id, name: string, email: string, notes: string, stamp: Stamp)
    | DraftAssistant(customer: Id, disclosure: Id, provider: Option<string>, stamp: Stamp)
    | CreateDocument(id: Id, kind: DocumentKind, customer: Id, amountCents: Option<nat>,
                     title: string, body: string, stamp: Stamp)
    | RequestSend(document: Id, id: Id, stamp: Stamp)
    | Approve(approval: Id, kernel: Option<KernelRun>, date: string, stamp: Stamp)
    | Reject(approval: Id, stamp: Stamp)
    | RevokeDelivery(document: Id, stamp: Stamp)
    | ConfirmDelivery(document: Id, stamp: Stamp)
    | Export(stamp: Stamp)

  datatype OpError = Invalid | PolicyDenied | NotFound | NoOutboxEffect | LedgerCorrupt | KernelFailed | WorkflowFailed

  datatype Outcome = Done | Failed(error: OpError)

  datatype Plan = Plan(writes: seq<Write>, outcome: Outcome)

  const MAX_CUSTOMERS := 500
  const MAX_DOCUMENTS := 2000

  /** Audit first: one ledger write for all entries. */
  function PlanAppend(cfg: Config, d: Disk, entries: seq<AuditEntry>, stamp: Stamp): Plan {
    if ChainFault(d.ledger, Some(cfg.deviceKey)).Fail? then Plan([], Failed(LedgerCorrupt))
    else Plan([SaveLedger(AppendedAll(d.ledger, entries, stamp.firstEventId, stamp.at, cfg.deviceKey))], Done)
  }

  /** Audit first, then the state. */
  function PlanCommit(cfg: Config, d: Disk, vault: Workspace, entries: seq<AuditEntry>, stamp: Stamp): Plan {
    var append := PlanAppend(cfg, d, entries, stamp);
    if append.outcome.Failed? then append else Plan(append.writes + [PutVault(vault)], Done)
  }

  function PlanOf(cfg: Config, d: Disk, op: Op): Plan {
    match op
    case SetVenture(name, service, stamp) =>
      if !cfg.policy.updateVenture then Plan([], Failed(PolicyDenied))
      else
        var vault := d.vault.(version := 1, venture := Some(Venture(name, service, stamp.at)));
        PlanCommit(cfg, d, vault, [AuditEntry(VentureUpdate, VentureProfile, Named(name))], stamp)
    case AddCustomer(id, name, email, notes, stamp) =>
      if !cfg.policy.createCustomer then Plan([], Failed(PolicyDenied))
      else if |d.vault.customers| >= MAX_CUSTOMERS then Plan([], Failed(Invalid))
      else
        var vault := d.vault.(customers := d.vault.customers + [Customer(id, name, email, notes, stamp.at)]);
        PlanCommit(cfg, d, vault, [AuditEntry(CustomerCreate, CustomerResource(id), Named(name))], stamp)
    case DraftAssistant(customer, disclosure, provider, stamp) =>
      if d.vault.venture.None? then Plan([], Failed(Invalid))
      else if FindCustomer(d.vault.customers, customer).None? then Plan([], Failed(NotFound))
      else if provider.None? then Plan([], Failed(Invalid))
      else
        var entry := ModelDisclosure(disclosure, stamp.at, customer, provider.value, true);
        var vault := d.vault.(disclosures := d.vault.disclosures + [entry]);
        PlanCommit(cfg, d, vault, [AuditEntry(ModelDrafted, CustomerResource(customer), Drafted(provider.value))], stamp)
    case CreateDocument(id, kind, customer, amountCents, title, body, stamp) =>
      if d.vault.venture.None? then Plan([], Failed(Invalid))
      else if FindCustomer(d.vault.customers, customer).None? then Plan([], Failed(NotFound))
      else if |d.vault.documents| >= MAX_DOCUMENTS then Plan([], Failed(Invalid))
      else if kind == Invoice && amountCents == None then Plan([], Failed(Invalid))
      else if !(if kind.Offer? then cfg.policy.draftOffer else cfg.policy.draftInvoice) then Plan([], Failed(PolicyDenied))
      else
        var document := Document(id, kind, customer, title, body, amountCents, Draft, stamp.at);
        var vault := d.vault.(documents := d.vault.documents + [document]);
        PlanCommit(cfg, d, vault, [AuditEntry(DocumentDraft, DocumentResource(id), DraftOf(kind, title))], stamp)
    case RequestSend(document, id, stamp) =>
      var i := FindDocument(d.vault.documents, document);
      if i.None? then Plan([], Failed(NotFound))
      else if d.vault.documents[i.value].status != Draft then Plan([], Failed(Invalid))
      else if !cfg.policy.sendAllowed || !cfg.policy.sendRequiresApproval then Plan([], Failed(PolicyDenied))
      else
        var approval := Approval(id, document, Pending, stamp.at, None, None);
        var vault := SetStatus(d.vault, i.value, PendingApproval);
        PlanCommit(cfg, d, vault.(approvals := vault.approvals + [approval]),
                   [AuditEntry(ApprovalRequested, DocumentResource(document), ForApproval(id))], stamp)
    case Approve(approval, kernel, date, stamp) =>
      var guard := DecisionGuard(d.vault, approval);
      if guard.Fail? then Plan([], Failed(guard.error))
      else
        var a := d.vault.approvals[FindApproval(d.vault.approvals, approval).value];
        PlanSend(cfg, d, a, kernel, date, stamp)
    case Reject(approval, stamp) =>
      var guard := DecisionGuard(d.vault, approval);
      if guard.Fail? then Plan([], Failed(guard.error))
      else
        var i := FindApproval(d.vault.approvals, approval).value;
        var a := d.vault.approvals[i];
        var vault := SetStatus(d.vault, FindDocument(d.vault.documents, a.documentId).value, RejectedDocument);
        PlanCommit(cfg, d,
                   vault.(approvals := vault.approvals[i := a.(status := Rejected, decidedAt := Some(stamp.at))]),
                   [AuditEntry(ApprovalRejected, DocumentResource(a.documentId), ForApproval(approval))], stamp)
    case RevokeDelivery(document, stamp) =>
      var i := FindDocument(d.vault.documents, document);
      if i.None? then Plan([], Failed(NotFound))
      else if d.vault.documents[i.value].status != ApprovedPendingDelivery then Plan([], Failed(Invalid))
      else
        var receipt := LastOutbox(d.vault.approvals, document);
        if receipt.None? then Plan([], Failed(NoOutboxEffect))
        else
          var eml := receipt.value.emlOf;
          var removal := if eml in d.outbox then [RemoveEml(eml)] else [];
          var commit := PlanCommit(cfg, d, SetStatus(d.vault, i.value, Revoked),
            [AuditEntry(EffectRevoked, DocumentResource(document), Outbox(receipt.value))], stamp);
          Plan(removal + commit.writes, commit.outcome)
    case ConfirmDelivery(document, stamp) =>
      var i := FindDocument(d.vault.documents, document);
      if i.None? then Plan([], Failed(NotFound))
      else if d.vault.documents[i.value].status != ApprovedPendingDelivery then Plan([], Failed(Invalid))
      else
        PlanCommit(cfg, d, SetStatus(d.vault, i.value, Delivered),
                   [AuditEntry(DeliveryConfirmed, DocumentResource(document), Empty)], stamp)
    case Export(stamp) =>
      PlanAppend(cfg, d, [AuditEntry(WorkspaceExport, WorkspaceAll, Empty)], stamp)
  }

  /** The checks `decide` makes before either decision. */
  function DecisionGuard(vault: Workspace, approval: Id): (r: Check<OpError>)
    ensures r.Pass? ==>
      var i := FindApproval(vault.approvals, approval);
      && i.Some?
      && vault.approvals[i.value].status == Pending
      && FindDocument(vault.documents, vault.approvals[i.value].documentId).Some?
  {
    var i := FindApproval(vault.approvals, approval);
    if i.None? then Fail(NotFound)
    else if vault.approvals[i.value].status != Pending then Fail(Invalid)
    else if FindDocument(vault.documents, vault.approvals[i.value].documentId).None? then Fail(NotFound)
    else Pass
  }

  // -------------------------------------------------------- the durable send

  const EXECUTE_STEP := "execute_signed_send"
  const COMMIT_STEP := "commit_decision"
  const SEND_STEPS := [EXECUTE_STEP, COMMIT_STEP]

  function WorkflowId(approval: Id): string { "send-" + Decimal(approval) }

  function CheckpointOf(d: Disk, approval: Id): SendCheckpoint {
    if approval in d.checkpoints then d.checkpoints[approval] else WF.Checkpoint(WorkflowId(approval), [], false)
  }

  function WithReceipt(c: SendCheckpoint, approval: Id, index: nat, name: string, output: StepOutput): SendCheckpoint {
    c.(completed := c.completed + [WF.Receipt(WorkflowId(approval), index, name, output)])
  }

  /** `next` starts from the files the plan leaves, unless the plan failed. */
  function Then(d: Disk, first: Plan, next: Disk -> Plan): Plan {
    if first.outcome.Failed? then first
    else
      var second := next(ApplyAll(d, first.writes));
      Plan(first.writes + second.writes, second.outcome)
  }

  function PlanSend(cfg: Config, d: Disk, a: Approval, kernel: Option<KernelRun>, date: string, stamp: Stamp): Plan {
    var c := CheckpointOf(d, a.id);
    if c.workflowId != WorkflowId(a.id) || WF.Diverges(c.completed, SEND_STEPS).Fail? then Plan([], Failed(WorkflowFailed))
    else
      Then(d, PlanStep0(d, a, kernel, MessageFor(d.vault, a.documentId, date)), d1 =>
        Then(d1, PlanStep1(cfg, d1, a, stamp), d2 => PlanFinish(d2, a)))
  }

  function PlanStep0(d: Disk, a: Approval, kernel: Option<KernelRun>, message: string): Plan {
    var c := CheckpointOf(d, a.id);
    if |c.completed| > 0 then Plan([], Done)
    else
      var execute := PlanExecute(d, a, kernel, message);
      if execute.outcome.Failed? then execute
      else
        var output := RecordBytes(ExecutedRecord(a, kernel.value, message));
        Plan(execute.writes + [PutCheckpoint(a.id, WithReceipt(c, a.id, 0, EXECUTE_STEP, output))], Done)
  }

  function PlanStep1(cfg: Config, d: Disk, a: Approval, stamp: Stamp): Plan {
    var c := CheckpointOf(d, a.id);
    if |c.completed| > 1 then Plan([], Done)
    else
      var commit := PlanCommitDecision(cfg, d, a, stamp);
      if commit.outcome.Failed? then commit
      else Plan(commit.writes + [PutCheckpoint(a.id, WithReceipt(c, a.id, 1, COMMIT_STEP, Committed))], Done)
  }

  function PlanFinish(d: Disk, a: Approval): Plan {
    var c := CheckpointOf(d, a.id);
    Plan(if c.done then [] else [PutCheckpoint(a.id, c.(done := true))], Done)
  }

  /** The message composed for a document. */
  function MessageFor(vault: Workspace, document: Id, date: string): string {
    var i := FindDocument(vault.documents, document);
    if i.None? then ""
    else
      var c := FindCustomer(vault.customers, vault.documents[i.value].customerId);
      Compose.Message(vault.venture, if c.Some? then Some(vault.customers[c.value]) else None,
                      vault.documents[i.value], date)
  }

  function ExecutedRecord(a: Approval, run: KernelRun, message: string): SignedApprovalRecord {
    SignedApprovalRecord(run, Some(OutboxWrite(a.documentId, Sha256(message), Utf8Length(message))))
  }

  /**
    `ExecuteSendStep::run`: an orphan message is removed, the kernel chain runs
    and writes the message, and the signed record is saved.
  */
  function PlanExecute(d: Disk, a: Approval, kernel: Option<KernelRun>, message: string): (p: Plan)
    ensures p.outcome.Done? ==> kernel.Some?
  {
    var j := FindApproval(d.vault.approvals, a.id);
    if j.None? then Plan([], Failed(NotFound))
    else if d.vault.approvals[j.value].status != Pending then Plan([], Failed(Invalid))
    else if FindDocument(d.vault.documents, a.documentId).None? then Plan([], Failed(NotFound))
    else
      var removal := if a.documentId in d.outbox then [RemoveEml(a.documentId)] else [];
      if kernel.None? then Plan(removal, Failed(KernelFailed))
      else
        Plan(removal + [PutEml(a.documentId, message), PutRecord(a.id, ExecutedRecord(a, kernel.value, message))], Done)
  }

  /** The events of a granted approval. */
  function GrantEntries(a: Approval, record: SignedApprovalRecord): seq<AuditEntry> {
    var resource := DocumentResource(a.documentId);
    [AuditEntry(ApprovalGranted, resource, Evidence(a.id, record.run)),
     AuditEntry(CapabilityExecuted, resource, Executed(record.run))]
    + (if record.outbox.Some? then [AuditEntry(FileWritten, resource, Outbox(record.outbox.value))] else [])
  }

  /** `CommitDecisionStep::run` with `commit_approve_decision`: nothing is written once the approval is decided. */
  function PlanCommitDecision(cfg: Config, d: Disk, a: Approval, stamp: Stamp): Plan {
    if a.id !in d.records then Plan([], Failed(WorkflowFailed))
    else
      var record := d.records[a.id];
      var j := FindApproval(d.vault.approvals, a.id);
      if j.None? then Plan([], Failed(NotFound))
      else if d.vault.approvals[j.value].status != Pending then Plan([], Done)
      else
        var i := FindDocument(d.vault.documents, a.documentId);
        if i.None? then Plan([], Failed(NotFound))
        else
          var decided := d.vault.approvals[j.value].(
            status := Approved, decidedAt := Some(stamp.at), evidence := Some(record));
          var vault := SetStatus(d.vault, i.value, ApprovedPendingDelivery);
          PlanCommit(cfg, d, vault.(approvals := vault.approvals[j.value := decided]), GrantEntries(a, record), stamp)
  }

  // -------------------------------------------------------------------- runs

  /** The files after `op` was interrupted once `crashAfter` of its writes were durable. */
  function Interrupted(cfg: Config, d: Disk, op: Op, crashAfter: nat): Disk {
    var writes := PlanOf(cfg, d, op).writes;
    ApplyAll(d, if crashAfter < |writes| then writes[..crashAfter] else writes)
  }

  function Completed(cfg: Config, d: Disk, op: Op): Disk { ApplyAll(d, PlanOf(cfg, d, op).writes) }

  datatype Attempt = Attempt(op: Op, crashAfter: nat)

  function RunAttempts(cfg: Config, d: Disk, attempts: seq<Attempt>): Disk
    decreases |attempts|
  {
    if attempts == [] then d
    else RunAttempts(cfg, Interrupted(cfg, d, attempts[0].op, attempts[0].crashAfter), attempts[1..])
  }

  /** A generated id differs from the ids of its kind in the stored workspace. */
  predicate Fresh(d: Disk, op: Op) {
    match op
    case AddCustomer(id, _, _, _, _) => FindCustomer(d.vault.customers, id).None?
    case CreateDocument(id, _, _, _, _, _, _) => FindDocument(d.vault.documents, id).None?
    case RequestSend(_, id, _) => FindApproval(d.vault.approvals, id).None?
    case _ => true
  }

  predicate FreshAttempts(cfg: Config, d: Disk, attempts: seq<Attempt>)
    decreases |attempts|
  {
    attempts == [] ||
    (Fresh(d, attempts[0].op) &&
     FreshAttempts(cfg, Interrupted(cfg, d, attempts[0].op, attempts[0].crashAfter), attempts[1..]))
  }
}
