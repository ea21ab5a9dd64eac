/**
  The store of `apps/cli/src/workspace`: its operations change the durable
  files one write at a time.  Each write spends one unit of a budget, and the
  operation dies at the first write that finds none left, so the budget is the
  crash point.  Every method leaves exactly the files its plan describes, cut
  at the crash.
*/
module WorkspaceStore {
  import opened Wrappers
  import opened AuditLedger
  import opened WorkspaceTypes
  import opened WorkspaceOps
  import opened WorkspaceSafety
  import opened ExportBundle
  import WF = Workflow

  function Cut(writes: seq<Write>, budget: nat): seq<Write> {
    if budget < |writes| then writes[..budget] else writes
  }

  /** The files, the budget left and the caller's answer after running a plan; no answer after a crash. */
  ghost predicate Ran(d: Disk, budget: nat, plan: Plan, e: Disk, left: nat, answer: Option<Outcome>) {
    && e == ApplyAll(d, Cut(plan.writes, budget))
    && left == budget - |Cut(plan.writes, budget)|
    && answer == if budget < |plan.writes| then None else Some(plan.outcome)
  }

  /** A plan run after another that was done is the two plans in a row. */
  lemma RanThen(d: Disk, budget: nat, first: Plan, d1: Disk, left: nat,
                second: Plan, e: Disk, rest: nat, answer: Option<Outcome>)
    requires Ran(d, budget, first, d1, left, Some(Done)) && Ran(d1, left, second, e, rest, answer)
    ensures d1 == ApplyAll(d, first.writes)
    ensures Ran(d, budget, Plan(first.writes + second.writes, second.outcome), e, rest, answer)
  {
    var all := first.writes + second.writes;
    ApplyAllConcat(d, first.writes, Cut(second.writes, left));
    assert Cut(all, budget) == first.writes + Cut(second.writes, left);
  }

  /** A plan that stopped in its first part stopped. */
  lemma RanPart(d: Disk, budget: nat, first: Plan, e: Disk, left: nat, more: seq<Write>, outcome: Outcome)
    requires Ran(d, budget, first, e, left, None)
    ensures Ran(d, budget, Plan(first.writes + more, outcome), e, left, None)
  {
    assert Cut(first.writes + more, budget) == Cut(first.writes, budget);
  }

  /** A finished run is a run interrupted where its budget ended. */
  lemma RanIsInterrupted(cfg: Config, d: Disk, budget: nat, op: Op, e: Disk, left: nat, answer: Option<Outcome>)
    requires Ran(d, budget, PlanOf(cfg, d, op), e, left, answer)
    ensures e == Interrupted(cfg, d, op, budget)
    ensures answer.Some? ==> e == Completed(cfg, d, op)
  {
  }

  lemma ApproveIsSend(cfg: Config, d: Disk, op: Op)
    requires op.Approve? && DecisionGuard(d.vault, op.approval).Pass?
    ensures PlanOf(cfg, d, op)
      == PlanSend(cfg, d, d.vault.approvals[FindApproval(d.vault.approvals, op.approval).value], op.kernel, op.date, op.stamp)
  {
  }

  class Store {
    const cfg: Config
    var ledger: Ledger
    var vault: Workspace
    var outbox: map<Id, string>
    var records: map<Id, SignedApprovalRecord>
    var checkpoints: map<Id, SendCheckpoint>
    var writesLeft: nat

    constructor (cfg: Config, d: Disk, budget: nat)
      ensures this.cfg == cfg && Snapshot() == d && writesLeft == budget
    {
      this.cfg := cfg;
      ledger, vault, outbox := d.ledger, d.vault, d.outbox;
      records, checkpoints, writesLeft := d.records, d.checkpoints, budget;
    }

    ghost function Snapshot(): Disk
      reads this
    {
      Disk(ledger, vault, outbox, records, checkpoints)
    }

    // ------------------------------------------------------- durable writes

    method Spend() returns (alive: bool)
      modifies this`writesLeft
      ensures alive == (old(writesLeft) > 0)
      ensures writesLeft == if alive then old(writesLeft) - 1 else 0
    {
      alive := writesLeft > 0;
      if alive {
        writesLeft := writesLeft - 1;
      }
    }

    method SaveLedger(events: Ledger) returns (r: Option<Outcome>)
      modifies this
      ensures Ran(old(Snapshot()), old(writesLeft), Plan([Write.SaveLedger(events)], Done), Snapshot(), writesLeft, r)
    {
      var alive := Spend();
      if !alive { return None; }
      ledger := events;
      return Some(Done);
    }

    method Save(workspace: Workspace) returns (r: Option<Outcome>)
      modifies this
      ensures Ran(old(Snapshot()), old(writesLeft), Plan([PutVault(workspace)], Done), Snapshot(), writesLeft, r)
    {
      var alive := Spend();
      if !alive { return None; }
      vault := workspace;
      return Some(Done);
    }

    /** Revoking an absent message writes nothing. */
    method RemoveMessage(document: Id) returns (r: Option<Outcome>)
      modifies this
      ensures Ran(old(Snapshot()), old(writesLeft),
                  Plan(if document in old(outbox) then [RemoveEml(document)] else [], Done), Snapshot(), writesLeft, r)
      ensures ledger == old(ledger) && vault == old(vault)
    {
      if document !in outbox { return Some(Done); }
      var alive := Spend();
      if !alive { return None; }
      outbox := outbox - {document};
      return Some(Done);
    }

    method WriteMessage(document: Id, message: string) returns (r: Option<Outcome>)
      modifies this
      ensures Ran(old(Snapshot()), old(writesLeft), Plan([PutEml(document, message)], Done), Snapshot(), writesLeft, r)
    {
      var alive := Spend();
      if !alive { return None; }
      outbox := outbox[document := message];
      return Some(Done);
    }

    method WriteRecord(approval: Id, record: SignedApprovalRecord) returns (r: Option<Outcome>)
      modifies this
      ensures Ran(old(Snapshot()), old(writesLeft), Plan([PutRecord(approval, record)], Done), Snapshot(), writesLeft, r)
    {
      var alive := Spend();
      if !alive { return None; }
      records := records[approval := record];
      return Some(Done);
    }

    method Persist(approval: Id, checkpoint: SendCheckpoint) returns (r: Option<Outcome>)
      modifies this
      ensures Ran(old(Snapshot()), old(writesLeft), Plan([PutCheckpoint(approval, checkpoint)], Done), Snapshot(), writesLeft, r)
    {
      var alive := Spend();
      if !alive { return None; }
      checkpoints := checkpoints[approval := checkpoint];
      return Some(Done);
    }

    // --------------------------------------------------------------- commits

    /** All events of an operation are appended in memory, then saved in one write. */
    method AppendEvents(entries: seq<AuditEntry>, stamp: Stamp) returns (r: Option<Outcome>)
      modifies this
      ensures Ran(old(Snapshot()), old(writesLeft), PlanAppend(cfg, old(Snapshot()), entries, stamp), Snapshot(), writesLeft, r)
    {
      var chain := new AuditLedger<AuditEntry>.Trusting(ledger, cfg.deviceKey);
      var verdict := chain.VerifyChain();
      if verdict.Fail? { return Some(Failed(LedgerCorrupt)); }
      for i := 0 to |entries|
        invariant Snapshot() == old(Snapshot()) && writesLeft == old(writesLeft)
        invariant chain.trusted == Some(cfg.deviceKey)
        invariant chain.events == AppendedAll(ledger, entries[..i], stamp.firstEventId, stamp.at, cfg.deviceKey)
      {
        assert entries[..i + 1][..i] == entries[..i];
        var appended := chain.Append(entries[i], stamp.firstEventId + i, stamp.at, cfg.deviceKey);
      }
      assert entries[..|entries|] == entries;
      r := SaveLedger(chain.events);
    }

    method Commit(workspace: Workspace, entries: seq<AuditEntry>, stamp: Stamp) returns (r: Option<Outcome>)
      modifies this
      ensures Ran(old(Snapshot()), old(writesLeft), PlanCommit(cfg, old(Snapshot()), workspace, entries, stamp),
                  Snapshot(), writesLeft, r)
    {
      ghost var d, budget := Snapshot(), writesLeft;
      ghost var first := PlanAppend(cfg, d, entries, stamp);
      r := AppendEvents(entries, stamp);
      if r == Some(Done) {
        ghost var d1, left := Snapshot(), writesLeft;
        r := Save(workspace);
        RanThen(d, budget, first, d1, left, Plan([PutVault(workspace)], Done), Snapshot(), writesLeft, r);
      } else if r == None {
        RanPart(d, budget, first, Snapshot(), writesLeft, [PutVault(workspace)], Done);
      }
    }

    // ------------------------------------------------------------ operations

    method SetVenture(name: string, service: string, stamp: Stamp) returns (r: Option<Outcome>)
      modifies this
      ensures Ran(old(Snapshot()), old(writesLeft), PlanOf(cfg, old(Snapshot()), Op.SetVenture(name, service, stamp)),
                  Snapshot(), writesLeft, r)
    {
      if !cfg.policy.updateVenture { return Some(Failed(PolicyDenied)); }
      var workspace := vault.(version := 1, venture := Some(Venture(name, service, stamp.at)));
      r := Commit(workspace, [AuditEntry(VentureUpdate, VentureProfile, Named(name))], stamp);
    }

    method AddCustomer(id: Id, name: string, email: string, notes: string, stamp: Stamp) returns (r: Option<Outcome>)
      modifies this
      ensures Ran(old(Snapshot()), old(writesLeft),
                  PlanOf(cfg, old(Snapshot()), Op.AddCustomer(id, name, email, notes, stamp)), Snapshot(), writesLeft, r)
    {
      if !cfg.policy.createCustomer { return Some(Failed(PolicyDenied)); }
      if |vault.customers| >= MAX_CUSTOMERS { return Some(Failed(Invalid)); }
      var workspace := vault.(customers := vault.customers + [Customer(id, name, email, notes, stamp.at)]);
      r := Commit(workspace, [AuditEntry(CustomerCreate, CustomerResource(id), Named(name))], stamp);
    }

    method DraftAssistant(customer: Id, disclosure: Id, provider: Option<string>, stamp: Stamp) returns (r: Option<Outcome>)
      modifies this
      ensures Ran(old(Snapshot()), old(writesLeft),
                  PlanOf(cfg, old(Snapshot()), Op.DraftAssistant(customer, disclosure, provider, stamp)),
                  Snapshot(), writesLeft, r)
    {
      if vault.venture.None? { return Some(Failed(Invalid)); }
      if FindCustomer(vault.customers, customer).None? { return Some(Failed(NotFound)); }
      if provider.None? { return Some(Failed(Invalid)); }
      var entry := ModelDisclosure(disclosure, stamp.at, customer, provider.value, true);
      r := Commit(vault.(disclosures := vault.disclosures + [entry]),
                  [AuditEntry(ModelDrafted, CustomerResource(customer), Drafted(provider.value))], stamp);
    }

    method CreateDocument(id: Id, kind: DocumentKind, customer: Id, amountCents: Option<nat>,
                          title: string, body: string, stamp: Stamp) returns (r: Option<Outcome>)
      modifies this
      ensures Ran(old(Snapshot()), old(writesLeft),
                  PlanOf(cfg, old(Snapshot()), Op.CreateDocument(id, kind, customer, amountCents, title, body, stamp)),
                  Snapshot(), writesLeft, r)
    {
      if vault.venture.None? { return Some(Failed(Invalid)); }
      if FindCustomer(vault.customers, customer).None? { return Some(Failed(NotFound)); }
      if |vault.documents| >= MAX_DOCUMENTS { return Some(Failed(Invalid)); }
      if kind == Invoice && amountCents == None { return Some(Failed(Invalid)); }
      if !(if kind.Offer? then cfg.policy.draftOffer else cfg.policy.draftInvoice) { return Some(Failed(PolicyDenied)); }
      var document := Document(id, kind, customer, title, body, amountCents, Draft, stamp.at);
      r := Commit(vault.(documents := vault.documents + [document]),
                  [AuditEntry(DocumentDraft, DocumentResource(id), DraftOf(kind, title))], stamp);
    }

    method RequestSend(document: Id, id: Id, stamp: Stamp) returns (r: Option<Outcome>)
      modifies this
      ensures Ran(old(Snapshot()), old(writesLeft), PlanOf(cfg, old(Snapshot()), Op.RequestSend(document, id, stamp)),
                  Snapshot(), writesLeft, r)
    {
      var i := FindDocument(vault.documents, document);
      if i.None? { return Some(Failed(NotFound)); }
      if vault.documents[i.value].status != Draft { return Some(Failed(Invalid)); }
      if !cfg.policy.sendAllowed || !cfg.policy.sendRequiresApproval { return Some(Failed(PolicyDenied)); }
      var workspace := SetStatus(vault, i.value, PendingApproval);
      workspace := workspace.(approvals := workspace.approvals + [Approval(id, document, Pending, stamp.at, None, None)]);
      r := Commit(workspace, [AuditEntry(ApprovalRequested, DocumentResource(document), ForApproval(id))], stamp);
    }

    method Reject(approval: Id, stamp: Stamp) returns (r: Option<Outcome>)
      modifies this
      ensures Ran(old(Snapshot()), old(writesLeft), PlanOf(cfg, old(Snapshot()), Op.Reject(approval, stamp)),
                  Snapshot(), writesLeft, r)
    {
      var guard := DecisionGuard(vault, approval);
      if guard.Fail? { return Some(Failed(guard.error)); }
      var j := FindApproval(vault.approvals, approval).value;
      var a := vault.approvals[j];
      var workspace := SetStatus(vault, FindDocument(vault.documents, a.documentId).value, RejectedDocument);
      var decided := a.(status := Rejected, decidedAt := Some(stamp.at));
      workspace := workspace.(approvals := workspace.approvals[j := decided]);
      r := Commit(workspace, [AuditEntry(ApprovalRejected, DocumentResource(a.documentId), ForApproval(approval))], stamp);
    }

    method Approve(approval: Id, kernel: Option<KernelRun>, date: string, stamp: Stamp) returns (r: Option<Outcome>)
      modifies this
      ensures Ran(old(Snapshot()), old(writesLeft), PlanOf(cfg, old(Snapshot()), Op.Approve(approval, kernel, date, stamp)),
                  Snapshot(), writesLeft, r)
    {
      var guard := DecisionGuard(vault, approval);
      if guard.Fail? { return Some(Failed(guard.error)); }
      ApproveIsSend(cfg, Snapshot(), Op.Approve(approval, kernel, date, stamp));
      r := RunDurableSend(vault.approvals[FindApproval(vault.approvals, approval).value], kernel, date, stamp);
    }

    method RevokeDelivery(document: Id, stamp: Stamp) returns (r: Option<Outcome>)
      modifies this
      ensures Ran(old(Snapshot()), old(writesLeft), PlanOf(cfg, old(Snapshot()), Op.RevokeDelivery(document, stamp)),
                  Snapshot(), writesLeft, r)
    {
      var i := FindDocument(vault.documents, document);
      if i.None? { return Some(Failed(NotFound)); }
      if vault.documents[i.value].status != ApprovedPendingDelivery { return Some(Failed(Invalid)); }
      var receipt := LastOutbox(vault.approvals, document);
      if receipt.None? { return Some(Failed(NoOutboxEffect)); }
      ghost var d, budget := Snapshot(), writesLeft;
      var eml := receipt.value.emlOf;
      ghost var removal := Plan(if eml in outbox then [RemoveEml(eml)] else [], Done);
      var workspace := SetStatus(vault, i.value, Revoked);
      var entries := [AuditEntry(EffectRevoked, DocumentResource(document), Outbox(receipt.value))];
      ghost var commit := PlanCommit(cfg, d, workspace, entries, stamp);
      r := RemoveMessage(eml);
      if r == None {
        RanPart(d, budget, removal, Snapshot(), writesLeft, commit.writes, commit.outcome);
        return;
      }
      ghost var d1, left := Snapshot(), writesLeft;
      assert d1.ledger == d.ledger;
      r := Commit(workspace, entries, stamp);
      assert PlanCommit(cfg, d1, workspace, entries, stamp) == commit;
      RanThen(d, budget, removal, d1, left, commit, Snapshot(), writesLeft, r);
    }

    method ConfirmDelivery(document: Id, stamp: Stamp) returns (r: Option<Outcome>)
      modifies this
      ensures Ran(old(Snapshot()), old(writesLeft), PlanOf(cfg, old(Snapshot()), Op.ConfirmDelivery(document, stamp)),
                  Snapshot(), writesLeft, r)
    {
      var i := FindDocument(vault.documents, document);
      if i.None? { return Some(Failed(NotFound)); }
      if vault.documents[i.value].status != ApprovedPendingDelivery { return Some(Failed(Invalid)); }
      r := Commit(SetStatus(vault, i.value, Delivered),
                  [AuditEntry(DeliveryConfirmed, DocumentResource(document), Empty)], stamp);
    }

    /** The bundle holds what was stored before the export was recorded; none is returned if that fails. */
    method Export(stamp: Stamp) returns (r: Option<Outcome>, bundle: Option<Bundle>)
      modifies this
      ensures Ran(old(Snapshot()), old(writesLeft), PlanOf(cfg, old(Snapshot()), Op.Export(stamp)), Snapshot(), writesLeft, r)
      ensures bundle == if r == Some(Done) then Some(ExportOf(cfg, old(Snapshot()))) else None
    {
      var chain := new AuditLedger<AuditEntry>.Trusting(ledger, cfg.deviceKey);
      var verdict := chain.VerifyChain();
      var events := if verdict.Pass? then ledger else [];
      var exported := Bundle(EXPORT_FORMAT, DeviceOf(cfg.deviceKey), vault, verdict.Pass?, Events(events));
      r := AppendEvents([AuditEntry(WorkspaceExport, WorkspaceAll, Empty)], stamp);
      bundle := if r == Some(Done) then Some(exported) else None;
    }

    // ------------------------------------------------------ the durable send

    /** Run or resume: each of the two steps is skipped when its receipt is stored. */
    method RunDurableSend(a: Approval, kernel: Option<KernelRun>, date: string, stamp: Stamp) returns (r: Option<Outcome>)
      modifies this
      ensures Ran(old(Snapshot()), old(writesLeft), PlanSend(cfg, old(Snapshot()), a, kernel, date, stamp),
                  Snapshot(), writesLeft, r)
    {
      ghost var d, budget := Snapshot(), writesLeft;
      var loaded := if a.id in checkpoints then checkpoints[a.id] else WF.Checkpoint(WorkflowId(a.id), [], false);
      if loaded.workflowId != WorkflowId(a.id) || WF.Diverges(loaded.completed, SEND_STEPS).Fail? {
        return Some(Failed(WorkflowFailed));
      }
      var message := MessageFor(vault, a.documentId, date);
      ghost var first := PlanStep0(d, a, kernel, message);
      r := RunStep0(a, kernel, message);
      ghost var d1, left := Snapshot(), writesLeft;
      if r != Some(Done) {
        RanStops(d, budget, first, d1, left, r, d1 => Then(d1, PlanStep1(cfg, d1, a, stamp), d2 => PlanFinish(d2, a)));
        return;
      }
      r := Settle(a, stamp);
      RanThen(d, budget, first, d1, left, PlanSettle(cfg, d1, a, stamp), Snapshot(), writesLeft, r);
    }

    /** The second step and the final checkpoint. */
    method Settle(a: Approval, stamp: Stamp) returns (r: Option<Outcome>)
      modifies this
      ensures Ran(old(Snapshot()), old(writesLeft), PlanSettle(cfg, old(Snapshot()), a, stamp), Snapshot(), writesLeft, r)
    {
      ghost var d, budget := Snapshot(), writesLeft;
      ghost var first := PlanStep1(cfg, d, a, stamp);
      r := RunStep1(a, stamp);
      ghost var d1, left := Snapshot(), writesLeft;
      if r != Some(Done) {
        RanStops(d, budget, first, d1, left, r, d2 => PlanFinish(d2, a));
        return;
      }
      r := Finish(a);
      RanThen(d, budget, first, d1, left, PlanFinish(d1, a), Snapshot(), writesLeft, r);
    }

    method RunStep0(a: Approval, kernel: Option<KernelRun>, message: string) returns (r: Option<Outcome>)
      modifies this
      ensures Ran(old(Snapshot()), old(writesLeft), PlanStep0(old(Snapshot()), a, kernel, message), Snapshot(), writesLeft, r)
    {
      ghost var d, budget := Snapshot(), writesLeft;
      var loaded := if a.id in checkpoints then checkpoints[a.id] else WF.Checkpoint(WorkflowId(a.id), [], false);
      if |loaded.completed| > 0 { return Some(Done); }
      r := ExecuteSendStep(a, kernel, message);
      ghost var d1, left := Snapshot(), writesLeft;
      ghost var execute := PlanExecute(d, a, kernel, message);
      if r == Some(Done) {
        var output := RecordBytes(ExecutedRecord(a, kernel.value, message));
        var next := WithReceipt(loaded, a.id, 0, EXECUTE_STEP, output);
        r := Persist(a.id, next);
        RanThen(d, budget, execute, d1, left, Plan([PutCheckpoint(a.id, next)], Done), Snapshot(), writesLeft, r);
      } else if r == None && execute.outcome.Done? {
        ghost var output := RecordBytes(ExecutedRecord(a, kernel.value, message));
        RanPart(d, budget, execute, d1, left, [PutCheckpoint(a.id, WithReceipt(loaded, a.id, 0, EXECUTE_STEP, output))], Done);
      }
    }

    method RunStep1(a: Approval, stamp: Stamp) returns (r: Option<Outcome>)
      modifies this
      ensures Ran(old(Snapshot()), old(writesLeft), PlanStep1(cfg, old(Snapshot()), a, stamp), Snapshot(), writesLeft, r)
    {
      ghost var d, budget := Snapshot(), writesLeft;
      var loaded := if a.id in checkpoints then checkpoints[a.id] else WF.Checkpoint(WorkflowId(a.id), [], false);
      if |loaded.completed| > 1 { return Some(Done); }
      r := CommitDecisionStep(a, stamp);
      ghost var d1, left := Snapshot(), writesLeft;
      ghost var commit := PlanCommitDecision(cfg, d, a, stamp);
      var next := WithReceipt(loaded, a.id, 1, COMMIT_STEP, Committed);
      if r == Some(Done) {
        r := Persist(a.id, next);
        RanThen(d, budget, commit, d1, left, Plan([PutCheckpoint(a.id, next)], Done), Snapshot(), writesLeft, r);
      } else if r == None && commit.outcome.Done? {
        RanPart(d, budget, commit, d1, left, [PutCheckpoint(a.id, next)], Done);
      }
    }

    method Finish(a: Approval) returns (r: Option<Outcome>)
      modifies this
      ensures Ran(old(Snapshot()), old(writesLeft), PlanFinish(old(Snapshot()), a), Snapshot(), writesLeft, r)
    {
      var loaded := if a.id in checkpoints then checkpoints[a.id] else WF.Checkpoint(WorkflowId(a.id), [], false);
      if loaded.done { return Some(Done); }
      r := Persist(a.id, loaded.(done := true));
    }

    method ExecuteSendStep(a: Approval, kernel: Option<KernelRun>, message: string) returns (r: Option<Outcome>)
      modifies this
      ensures Ran(old(Snapshot()), old(writesLeft), PlanExecute(old(Snapshot()), a, kernel, message), Snapshot(), writesLeft, r)
    {
      ghost var d, budget := Snapshot(), writesLeft;
      var j := FindApproval(vault.approvals, a.id);
      if j.None? { return Some(Failed(NotFound)); }
      if vault.approvals[j.value].status != Pending { return Some(Failed(Invalid)); }
      if FindDocument(vault.documents, a.documentId).None? { return Some(Failed(NotFound)); }
      ghost var removal := Plan(if a.documentId in outbox then [RemoveEml(a.documentId)] else [], Done);
      r := RemoveMessage(a.documentId);
      if kernel.None? {
        if r == Some(Done) { r := Some(Failed(KernelFailed)); }
        return;
      }
      var record := ExecutedRecord(a, kernel.value, message);
      ghost var effect := [PutEml(a.documentId, message), PutRecord(a.id, record)];
      if r == None {
        RanPart(d, budget, removal, Snapshot(), writesLeft, effect, Done);
        return;
      }
      ghost var d1, left := Snapshot(), writesLeft;
      r := WriteEffect(a, message, record);
      RanThen(d, budget, removal, d1, left, Plan(effect, Done), Snapshot(), writesLeft, r);
    }

    method WriteEffect(a: Approval, message: string, record: SignedApprovalRecord) returns (r: Option<Outcome>)
      modifies this
      ensures Ran(old(Snapshot()), old(writesLeft), Plan([PutEml(a.documentId, message), PutRecord(a.id, record)], Done),
                  Snapshot(), writesLeft, r)
    {
      ghost var d, budget := Snapshot(), writesLeft;
      ghost var message0 := Plan([PutEml(a.documentId, message)], Done);
      assert message0.writes + [PutRecord(a.id, record)] == [PutEml(a.documentId, message), PutRecord(a.id, record)];
      r := WriteMessage(a.documentId, message);
      ghost var d1, left := Snapshot(), writesLeft;
      if r == None {
        RanPart(d, budget, message0, d1, left, [PutRecord(a.id, record)], Done);
        return;
      }
      r := WriteRecord(a.id, record);
      RanThen(d, budget, message0, d1, left, Plan([PutRecord(a.id, record)], Done), Snapshot(), writesLeft, r);
    }

    /** A no-op once the approval is decided. */
    method CommitDecisionStep(a: Approval, stamp: Stamp) returns (r: Option<Outcome>)
      modifies this
      ensures Ran(old(Snapshot()), old(writesLeft), PlanCommitDecision(cfg, old(Snapshot()), a, stamp),
                  Snapshot(), writesLeft, r)
    {
      if a.id !in records { return Some(Failed(WorkflowFailed)); }
      var record := records[a.id];
      var j := FindApproval(vault.approvals, a.id);
      if j.None? { return Some(Failed(NotFound)); }
      if vault.approvals[j.value].status != Pending { return Some(Done); }
      var i := FindDocument(vault.documents, a.documentId);
      if i.None? { return Some(Failed(NotFound)); }
      var decided := vault.approvals[j.value].(status := Approved, decidedAt := Some(stamp.at), evidence := Some(record));
      var workspace := SetStatus(vault, i.value, ApprovedPendingDelivery);
      workspace := workspace.(approvals := workspace.approvals[j.value := decided]);
      r := Commit(workspace, GrantEntries(a, record), stamp);
    }
  }

  ghost function PlanSettle(cfg: Config, d: Disk, a: Approval, stamp: Stamp): Plan {
    Then(d, PlanStep1(cfg, d, a, stamp), d2 => PlanFinish(d2, a))
  }

  /** A plan whose first part failed or crashed ends there. */
  lemma RanStops(d: Disk, budget: nat, first: Plan, e: Disk, left: nat, answer: Option<Outcome>, next: Disk -> Plan)
    requires Ran(d, budget, first, e, left, answer) && answer != Some(Done)
    ensures Ran(d, budget, Then(d, first, next), e, left, answer)
  {
    if answer == None && first.outcome.Done? {
      var second := next(ApplyAll(d, first.writes));
      RanPart(d, budget, first, e, left, second.writes, second.outcome);
    }
  }
}
