/** When the self-audit is clean: after runs without crashes, and after an interrupted operation is retried. */
module WorkspaceHealing {
  import opened Wrappers
  import opened AuditLedger
  import opened WorkspaceTypes
  import opened WorkspaceOps
  import opened Integrity
  import opened WorkspaceInvariant
  import opened WorkspaceSafety
  import opened WorkspaceOpSafety
  import opened WorkspaceFrame
  import opened WorkspaceRuns

  // ------------------------------------------------- what completion settles

  /** On the operation's own resource, exactly the events of its own kind stop being torn. */
  ghost predicate Settles(d: Disk, op: Op, vault: Workspace) {
    forall x: AuditEntry | x.resource == ResourceOf(d, op) ::
      Torn(x, vault) <==> Torn(x, d.vault) && x.action != ActionOf(op)
  }

  /** A document goes from one status to another, and everything else stays. */
  ghost predicate Moves(before: Workspace, after: Workspace, document: Id, status: DocumentStatus) {
    && after.customers == before.customers
    && StatusOf(after, document) == Some(status)
  }

  lemma MoveSettles(d: Disk, op: Op, after: Workspace, document: Id, status: DocumentStatus)
    requires ResourceOf(d, op) == DocumentResource(document)
    requires Moves(d.vault, after, document, status)
    requires (ActionOf(op), StatusOf(d.vault, document), status) in
      {(ApprovalRequested, Some(Draft), PendingApproval), (ApprovalRejected, Some(PendingApproval), RejectedDocument),
       (ApprovalGranted, Some(PendingApproval), ApprovedPendingDelivery),
       (EffectRevoked, Some(ApprovedPendingDelivery), Revoked), (DeliveryConfirmed, Some(ApprovedPendingDelivery), Delivered),
       (DocumentDraft, None, Draft)}
    ensures Settles(d, op, after)
  {
  }

  lemma SideSettles(d: Disk, op: Op)
    requires op.SetVenture? || op.DraftAssistant?
    ensures Settles(d, op, NextVault(d, op))
  {
    assert NextVault(d, op).customers == d.vault.customers && NextVault(d, op).documents == d.vault.documents;
  }

  lemma AddCustomerSettles(d: Disk, op: Op)
    requires op.AddCustomer? && Fresh(d, op)
    ensures Settles(d, op, NextVault(d, op))
  {
    FindCustomerAppend(d.vault.customers, Customer(op.id, op.name, op.email, op.notes, op.stamp.at), op.id);
  }

  lemma CreateDocumentSettles(d: Disk, op: Op)
    requires op.CreateDocument? && Fresh(d, op)
    ensures Settles(d, op, NextVault(d, op))
  {
    var x := Document(op.id, op.kind, op.customer, op.title, op.body, op.amountCents, Draft, op.stamp.at);
    StatusAfterAppend(d.vault, x, op.id);
    MoveSettles(d, op, NextVault(d, op), op.id, Draft);
  }

  lemma RejectSettles(d: Disk, op: Op)
    requires Lifecycle(d.vault) && op.Reject? && DecisionGuard(d.vault, op.approval).Pass?
    ensures Settles(d, op, NextVault(d, op))
  {
    var a := d.vault.approvals[FindApproval(d.vault.approvals, op.approval).value];
    assert InStep(d.vault, a);
    StatusAfterSet(d.vault, FindDocument(d.vault.documents, a.documentId).value, RejectedDocument, a.documentId);
    MoveSettles(d, op, NextVault(d, op), a.documentId, RejectedDocument);
  }

  /** A submission or a confirmation of a document in the status it needs. */
  lemma StatusSettles(d: Disk, op: Op)
    requires Lifecycle(d.vault) && (op.RequestSend? || op.ConfirmDelivery?)
    requires StatusOf(d.vault, op.document) == Some(if op.RequestSend? then Draft else ApprovedPendingDelivery)
    ensures Settles(d, op, NextVault(d, op))
  {
    var status := if op.RequestSend? then PendingApproval else Delivered;
    StatusAfterSet(d.vault, FindDocument(d.vault.documents, op.document).value, status, op.document);
    MoveSettles(d, op, NextVault(d, op), op.document, status);
  }

  lemma DoneGuards(cfg: Config, d: Disk, op: Op)
    requires CommitOnly(op) && PlanOf(cfg, d, op).outcome.Done?
    ensures op.Reject? ==> DecisionGuard(d.vault, op.approval).Pass?
    ensures op.RequestSend? ==> StatusOf(d.vault, op.document) == Some(Draft)
    ensures op.ConfirmDelivery? ==> StatusOf(d.vault, op.document) == Some(ApprovedPendingDelivery)
  {
  }

  lemma CommitSettles(cfg: Config, d: Disk, op: Op)
    requires Lifecycle(d.vault) && CommitOnly(op) && Fresh(d, op) && PlanOf(cfg, d, op).outcome.Done?
    ensures Settles(d, op, NextVault(d, op))
  {
    DoneGuards(cfg, d, op);
    if op.SetVenture? || op.DraftAssistant? {
      SideSettles(d, op);
    } else if op.AddCustomer? {
      AddCustomerSettles(d, op);
    } else if op.CreateDocument? {
      CreateDocumentSettles(d, op);
    } else if op.Reject? {
      RejectSettles(d, op);
    } else {
      StatusSettles(d, op);
    }
  }

  /** A completed operation has signed something, and settled its resource. */
  lemma DoneSettles(cfg: Config, d: Disk, op: Op, revoking: set<Id>)
    requires Inv(cfg.deviceKey, d, revoking) && Fresh(d, op) && PlanOf(cfg, d, op).outcome.Done?
    ensures |d.ledger| < |Completed(cfg, d, op).ledger|
    ensures Settles(d, op, Completed(cfg, d, op).vault)
  {
    if op.Approve? {
      ApproveSettles(cfg, d, op, revoking);
    } else if op.RevokeDelivery? {
      RevokeSettles(cfg, d, op, revoking);
    } else if op.Export? {
      ExportSettles(cfg, d, op, revoking);
    } else {
      CommitOnlySettles(cfg, d, op);
    }
  }

  lemma ExportSettles(cfg: Config, d: Disk, op: Op, revoking: set<Id>)
    requires Inv(cfg.deviceKey, d, revoking) && op.Export?
    ensures |d.ledger| < |Completed(cfg, d, op).ledger|
    ensures Settles(d, op, Completed(cfg, d, op).vault)
  {
    var entries := [AuditEntry(WorkspaceExport, WorkspaceAll, Empty)];
    SignedSafe(cfg, d, entries, op.stamp, revoking);
    AppendAllExtends(d.ledger, entries, op.stamp.firstEventId, op.stamp.at, cfg.deviceKey);
    SafeOne(cfg.deviceKey, d, SaveLedger(Signed(cfg, d, entries, op.stamp).ledger), revoking);
  }

  lemma CommitOnlySettles(cfg: Config, d: Disk, op: Op)
    requires Verified(d.ledger, cfg.deviceKey) && Lifecycle(d.vault)
    requires CommitOnly(op) && Fresh(d, op) && PlanOf(cfg, d, op).outcome.Done?
    ensures |d.ledger| < |Completed(cfg, d, op).ledger|
    ensures Settles(d, op, Completed(cfg, d, op).vault)
  {
    FaultFreeIffVerified(d.ledger, Some(cfg.deviceKey));
    CommitShape(cfg, d, op);
    CommitSettles(cfg, d, op);
    CommitResult(cfg, d, NextVault(d, op), [CommitEntry(d, op)], op.stamp);
  }

  lemma CommitResult(cfg: Config, d: Disk, vault: Workspace, entries: seq<AuditEntry>, stamp: Stamp)
    requires Verified(d.ledger, cfg.deviceKey) && entries != []
    ensures var e := ApplyAll(d, PlanCommit(cfg, d, vault, entries, stamp).writes);
      e.vault == vault && |d.ledger| < |e.ledger|
  {
    FaultFreeIffVerified(d.ledger, Some(cfg.deviceKey));
    AppendAllExtends(d.ledger, entries, stamp.firstEventId, stamp.at, cfg.deviceKey);
    var e := d.(ledger := AppendedAll(d.ledger, entries, stamp.firstEventId, stamp.at, cfg.deviceKey));
    assert [SaveLedger(e.ledger)] + [PutVault(vault)] == [SaveLedger(e.ledger), PutVault(vault)];
    assert [SaveLedger(e.ledger), PutVault(vault)][1..] == [PutVault(vault)];
    assert ApplyAll(e, [PutVault(vault)]) == e.(vault := vault);
  }

  /** What a completed grant leaves: a longer chain, and its document awaiting delivery. */
  lemma ApproveResult(cfg: Config, d: Disk, op: Op, j: nat, revoking: set<Id>)
    requires Sending(cfg.deviceKey, d, j, revoking) && op.Approve?
    requires PlanSend(cfg, d, d.vault.approvals[j], op.kernel, op.date, op.stamp).outcome.Done?
    ensures var a := d.vault.approvals[j];
      var e := ApplyAll(d, PlanSend(cfg, d, a, op.kernel, op.date, op.stamp).writes);
      && |d.ledger| < |e.ledger| && Moves(d.vault, e.vault, a.documentId, ApprovedPendingDelivery)
  {
    var a := d.vault.approvals[j];
    SendSafe(cfg, d, j, op.kernel, op.date, op.stamp, revoking);
    var d1 := ApplyAll(d, PlanStep0(d, a, op.kernel, MessageFor(d.vault, a.documentId, op.date)).writes);
    var e := ApplyAll(d, PlanSend(cfg, d, a, op.kernel, op.date, op.stamp).writes);
    GrantingResult(cfg, d1, e, j, op.stamp);
  }

  lemma GrantingResult(cfg: Config, d: Disk, e: Disk, j: nat, stamp: Stamp)
    requires Verified(d.ledger, cfg.deviceKey)
    requires j < |d.vault.approvals| && d.vault.approvals[j].id in d.records && Granting(cfg, d, e, j, stamp)
    ensures |d.ledger| < |e.ledger|
    ensures Moves(d.vault, e.vault, d.vault.approvals[j].documentId, ApprovedPendingDelivery)
  {
    var a := d.vault.approvals[j];
    AppendAllExtends(d.ledger, GrantEntries(a, d.records[a.id]), stamp.firstEventId, stamp.at, cfg.deviceKey);
  }

  /** The document of a pending approval is pending too. */
  lemma PendingInStep(vault: Workspace, j: nat)
    requires Lifecycle(vault) && j < |vault.approvals| && vault.approvals[j].status == Pending
    ensures StatusOf(vault, vault.approvals[j].documentId) == Some(PendingApproval)
  {
    assert InStep(vault, vault.approvals[j]);
  }

  lemma ApproveSettles(cfg: Config, d: Disk, op: Op, revoking: set<Id>)
    requires Inv(cfg.deviceKey, d, revoking) && op.Approve? && PlanOf(cfg, d, op).outcome.Done?
    ensures |d.ledger| < |Completed(cfg, d, op).ledger|
    ensures Settles(d, op, Completed(cfg, d, op).vault)
  {
    var j := FindApproval(d.vault.approvals, op.approval).value;
    ApproveResult(cfg, d, op, j, revoking);
    PendingInStep(d.vault, j);
    MoveSettles(d, op, Completed(cfg, d, op).vault, d.vault.approvals[j].documentId, ApprovedPendingDelivery);
  }

  lemma DoneRevokeGuard(cfg: Config, d: Disk, op: Op)
    requires op.RevokeDelivery? && PlanOf(cfg, d, op).outcome.Done?
    ensures StatusOf(d.vault, op.document) == Some(ApprovedPendingDelivery)
  {
  }

  /** What a completed revocation leaves: one more event, and its document revoked. */
  lemma RevokeResult(cfg: Config, d: Disk, op: Op, revoking: set<Id>)
    requires Inv(cfg.deviceKey, d, revoking) && op.RevokeDelivery?
    requires StatusOf(d.vault, op.document) == Some(ApprovedPendingDelivery)
    ensures LastOutbox(d.vault.approvals, op.document).Some?
    ensures var entry := RevokedEntry(d.vault, op.document);
      Completed(cfg, d, op)
        == Signed(cfg, Apply(d, RemoveEml(op.document)), [entry], op.stamp).(vault := RevokedVault(d.vault, op.document))
  {
    MoreRevoking(cfg.deviceKey, d, revoking, revoking + {op.document});
    RevokeFindsItsReceipt(cfg.deviceKey, d, revoking, op.document);
    RevokeShape(cfg, d, op.document, op.stamp);
    RevokeWritesSafe(cfg, d, op.document, RevokedEntry(d.vault, op.document), op.stamp, revoking + {op.document});
  }

  lemma RevokedMoves(d: Disk, op: Op)
    requires Lifecycle(d.vault) && op.RevokeDelivery?
    requires StatusOf(d.vault, op.document) == Some(ApprovedPendingDelivery)
    ensures Settles(d, op, RevokedVault(d.vault, op.document))
  {
    StatusAfterSet(d.vault, FindDocument(d.vault.documents, op.document).value, Revoked, op.document);
    MoveSettles(d, op, RevokedVault(d.vault, op.document), op.document, Revoked);
  }

  lemma RevokeSettles(cfg: Config, d: Disk, op: Op, revoking: set<Id>)
    requires Inv(cfg.deviceKey, d, revoking) && op.RevokeDelivery? && PlanOf(cfg, d, op).outcome.Done?
    ensures |d.ledger| < |Completed(cfg, d, op).ledger|
    ensures Settles(d, op, Completed(cfg, d, op).vault)
  {
    DoneRevokeGuard(cfg, d, op);
    RevokeResult(cfg, d, op, revoking);
    RevokedMoves(d, op);
    AppendAllExtends(
      d.ledger, [RevokedEntry(d.vault, op.document)], op.stamp.firstEventId, op.stamp.at, cfg.deviceKey);
  }

  // ---------------------------------------------------------------- the tail

  predicate LastIsOn(ledger: Ledger, resource: Resource) {
    ledger != [] && ledger[|ledger| - 1].body.content.resource == resource
  }

  lemma TrailUnique(ledger: Ledger, start: nat)
    requires ledger != [] && start <= |ledger|
    requires forall i | start <= i < |ledger| :: LastIsOn(ledger, ledger[i].body.content.resource)
    requires start == 0 || !LastIsOn(ledger, ledger[start - 1].body.content.resource)
    ensures start == TrailStart(ledger, |ledger|)
  {
  }

  /** New events on one resource join the old tail exactly when that was on the same resource. */
  lemma TrailAfter(d: Disk, op: Op, longer: Ledger)
    requires Signs(d, op, longer) && |d.ledger| < |longer|
    ensures TrailStart(longer, |longer|)
      == if LastIsOn(d.ledger, ResourceOf(d, op)) then TrailStart(d.ledger, |d.ledger|) else |d.ledger|
  {
    var n := |d.ledger|;
    assert EntryOf(d, op, longer[|longer| - 1].body.content);
    var start := if LastIsOn(d.ledger, ResourceOf(d, op)) then TrailStart(d.ledger, n) else n;
    forall i | start <= i < |longer| ensures LastIsOn(longer, longer[i].body.content.resource) {
      if i < n {
        assert longer[i] == d.ledger[i];
      } else {
        assert EntryOf(d, op, longer[i].body.content);
      }
    }
    if start > 0 {
      assert longer[start - 1] == d.ledger[start - 1];
    }
    TrailUnique(longer, start);
  }

  /** A torn event of another kind ends the chain on the operation's own resource. */
  ghost predicate Blocked(d: Disk, op: Op) {
    && LastIsOn(d.ledger, ResourceOf(d, op))
    && exists i :: TrailStart(d.ledger, |d.ledger|) <= i < |d.ledger|
         && Torn(d.ledger[i].body.content, d.vault) && d.ledger[i].body.content.action != ActionOf(op)
  }

  /**
    Exactly when a completed operation leaves a clean self-audit: when no torn
    event of another kind trails on its resource.
  */
  lemma CompletedIsCleanExactly(cfg: Config, d: Disk, op: Op, revoking: set<Id>)
    requires Inv(cfg.deviceKey, d, revoking) && Fresh(d, op) && PlanOf(cfg, d, op).outcome.Done?
    ensures Findings(cfg.deviceKey, Completed(cfg, d, op)) == [] <==> !Blocked(d, op)
  {
    var e := Completed(cfg, d, op);
    CompletedFacts(cfg, d, op, revoking);
    FindingsMeaning(cfg.deviceKey, e);
    TailAfter(d, op, e);
  }

  lemma CompletedFacts(cfg: Config, d: Disk, op: Op, revoking: set<Id>)
    requires Inv(cfg.deviceKey, d, revoking) && Fresh(d, op) && PlanOf(cfg, d, op).outcome.Done?
    ensures var e := Completed(cfg, d, op);
      && Verified(e.ledger, cfg.deviceKey) && Backed(e.ledger, e.vault)
      && Signs(d, op, e.ledger) && |d.ledger| < |e.ledger| && Settles(d, op, e.vault)
  {
    var writes := PlanOf(cfg, d, op).writes;
    assert Interrupted(cfg, d, op, |writes|) == Completed(cfg, d, op);
    InterruptedSafe(cfg, d, op, |writes|, revoking);
    InterruptedLater(cfg, d, op, |writes|, revoking);
    DoneSettles(cfg, d, op, revoking);
  }

  /** On the operation's resource, what is torn afterwards was torn before and is of another kind. */
  lemma TornAfter(d: Disk, op: Op, e: Disk, i: nat)
    requires Signs(d, op, e.ledger) && Settles(d, op, e.vault)
    requires i < |e.ledger| && e.ledger[i].body.content.resource == ResourceOf(d, op)
    ensures Torn(e.ledger[i].body.content, e.vault)
      <==> i < |d.ledger| && Torn(d.ledger[i].body.content, d.vault) && d.ledger[i].body.content.action != ActionOf(op)
  {
    if i < |d.ledger| {
      assert e.ledger[i] == d.ledger[i];
    } else {
      assert EntryOf(d, op, e.ledger[i].body.content);
    }
  }

  /** The trailing events after a completed operation are on its resource. */
  lemma TrailIsOwn(d: Disk, op: Op, longer: Ledger, i: nat)
    requires Signs(d, op, longer) && |d.ledger| < |longer| && TrailStart(longer, |longer|) <= i < |longer|
    ensures longer[i].body.content.resource == ResourceOf(d, op)
  {
    assert EntryOf(d, op, longer[|longer| - 1].body.content);
  }

  lemma TornTailIsBlocked(d: Disk, op: Op, e: Disk, i: nat)
    requires Signs(d, op, e.ledger) && |d.ledger| < |e.ledger| && Settles(d, op, e.vault)
    requires TrailStart(e.ledger, |e.ledger|) <= i < |e.ledger| && Torn(e.ledger[i].body.content, e.vault)
    ensures Blocked(d, op)
  {
    TrailAfter(d, op, e.ledger);
    TrailIsOwn(d, op, e.ledger, i);
    TornAfter(d, op, e, i);
  }

  lemma BlockedTailIsTorn(d: Disk, op: Op, e: Disk, i: nat)
    requires Signs(d, op, e.ledger) && |d.ledger| < |e.ledger| && Settles(d, op, e.vault)
    requires LastIsOn(d.ledger, ResourceOf(d, op)) && TrailStart(d.ledger, |d.ledger|) <= i < |d.ledger|
    requires Torn(d.ledger[i].body.content, d.vault) && d.ledger[i].body.content.action != ActionOf(op)
    ensures TailTorn(e.ledger, e.vault)
  {
    TrailAfter(d, op, e.ledger);
    TrailIsOwn(d, op, e.ledger, i);
    TornAfter(d, op, e, i);
  }

  lemma TailAfter(d: Disk, op: Op, e: Disk)
    requires Signs(d, op, e.ledger) && |d.ledger| < |e.ledger| && Settles(d, op, e.vault)
    ensures TailTorn(e.ledger, e.vault) <==> Blocked(d, op)
  {
    if TailTorn(e.ledger, e.vault) {
      var i :| TrailStart(e.ledger, |e.ledger|) <= i < |e.ledger| && Torn(e.ledger[i].body.content, e.vault);
      TornTailIsBlocked(d, op, e, i);
    } else if Blocked(d, op) {
      var i :| TrailStart(d.ledger, |d.ledger|) <= i < |d.ledger|
        && Torn(d.ledger[i].body.content, d.vault) && d.ledger[i].body.content.action != ActionOf(op);
      BlockedTailIsTorn(d, op, e, i);
    }
  }

  // ----------------------------------------------------------------- healing

  lemma ProgressMendsOnly(before: Workspace, after: Workspace, x: AuditEntry)
    requires Progress(before, after) && Torn(x, after)
    ensures Torn(x, before)
  {
    var subject := SubjectId(x.resource);
    if subject.Some? {
      assert Advances(StatusOf(before, subject.value), StatusOf(after, subject.value));
    }
  }

  /** Every torn event of the tail is of the given kind. */
  ghost predicate TornOnlyBy(d: Disk, action: Action) {
    forall i | TrailStart(d.ledger, |d.ledger|) <= i < |d.ledger| ::
      Torn(d.ledger[i].body.content, d.vault) ==> d.ledger[i].body.content.action == action
  }

  lemma InterruptionTearsOnlyItself(d: Disk, op: Op, e: Disk)
    requires Later(d, op, e) && TornOnlyBy(d, ActionOf(op))
    ensures TornOnlyBy(e, ActionOf(op))
  {
    if |d.ledger| < |e.ledger| {
      TrailAfter(d, op, e.ledger);
    } else {
      assert e.ledger == d.ledger;
    }
    forall i | TrailStart(e.ledger, |e.ledger|) <= i < |e.ledger| && Torn(e.ledger[i].body.content, e.vault)
      ensures e.ledger[i].body.content.action == ActionOf(op)
    {
      if i < |d.ledger| {
        assert e.ledger[i] == d.ledger[i];
        ProgressMendsOnly(d.vault, e.vault, e.ledger[i].body.content);
      } else {
        assert EntryOf(d, op, e.ledger[i].body.content);
      }
    }
  }

  lemma {:induction false} AttemptsTearOnlyThemselves(
    cfg: Config, d: Disk, attempts: seq<Attempt>, action: Action, revoking: set<Id>)
    requires Inv(cfg.deviceKey, d, revoking) && FreshAttempts(cfg, d, attempts) && TornOnlyBy(d, action)
    requires forall t <- attempts :: ActionOf(t.op) == action
    ensures TornOnlyBy(RunAttempts(cfg, d, attempts), action)
    decreases |attempts|
  {
    if attempts != [] {
      var op := attempts[0].op;
      InterruptedSafe(cfg, d, op, attempts[0].crashAfter, revoking);
      InterruptedLater(cfg, d, op, attempts[0].crashAfter, revoking);
      InterruptionTearsOnlyItself(d, op, Interrupted(cfg, d, op, attempts[0].crashAfter));
      AttemptsTearOnlyThemselves(
        cfg, Interrupted(cfg, d, op, attempts[0].crashAfter), attempts[1..], action, Touch(revoking, op));
    }
  }

  /**
    From a clean self-audit, an operation interrupted any number of times at
    any write, then retried to completion, again leaves a clean one.  A retry
    may carry fresh ids, times and kernel results.
  */
  lemma RetryHeals(cfg: Config, d: Disk, attempts: seq<Attempt>, op: Op, revoking: set<Id>)
    requires Inv(cfg.deviceKey, d, revoking) && Findings(cfg.deviceKey, d) == []
    requires FreshAttempts(cfg, d, attempts) && forall t <- attempts :: ActionOf(t.op) == ActionOf(op)
    requires var e := RunAttempts(cfg, d, attempts); Fresh(e, op) && PlanOf(cfg, e, op).outcome.Done?
    ensures Findings(cfg.deviceKey, Completed(cfg, RunAttempts(cfg, d, attempts), op)) == []
  {
    FindingsMeaning(cfg.deviceKey, d);
    assert TornOnlyBy(d, ActionOf(op));
    AttemptsTearOnlyThemselves(cfg, d, attempts, ActionOf(op), revoking);
    RunKeepsInv(cfg, d, attempts, revoking);
    CompletedIsCleanExactly(cfg, RunAttempts(cfg, d, attempts), op, revoking + Revoking(attempts));
  }

  // ---------------------------------------------------- runs without crashes

  function RunOps(cfg: Config, d: Disk, ops: seq<Op>): Disk
    decreases |ops|
  {
    if ops == [] then d else RunOps(cfg, Completed(cfg, d, ops[0]), ops[1..])
  }

  predicate FreshOps(cfg: Config, d: Disk, ops: seq<Op>)
    decreases |ops|
  {
    ops == [] || (Fresh(d, ops[0]) && FreshOps(cfg, Completed(cfg, d, ops[0]), ops[1..]))
  }

  /** No event of the whole chain is torn. */
  ghost predicate Untorn(d: Disk) { forall i | 0 <= i < |d.ledger| :: !Torn(d.ledger[i].body.content, d.vault) }

  lemma CompletedKeepsUntorn(cfg: Config, d: Disk, op: Op, revoking: set<Id>)
    requires Inv(cfg.deviceKey, d, revoking) && Fresh(d, op) && Untorn(d)
    ensures Untorn(Completed(cfg, d, op))
  {
    var e := Completed(cfg, d, op);
    var writes := PlanOf(cfg, d, op).writes;
    assert Interrupted(cfg, d, op, |writes|) == e;
    InterruptedLater(cfg, d, op, |writes|, revoking);
    if PlanOf(cfg, d, op).outcome.Done? {
      DoneSettles(cfg, d, op, revoking);
    } else {
      FailureKeepsState(cfg, d, op, revoking);
    }
    forall i | 0 <= i < |e.ledger| ensures !Torn(e.ledger[i].body.content, e.vault) {
      if i < |d.ledger| {
        assert e.ledger[i] == d.ledger[i];
        if Torn(e.ledger[i].body.content, e.vault) {
          ProgressMendsOnly(d.vault, e.vault, e.ledger[i].body.content);
        }
      } else {
        assert EntryOf(d, op, e.ledger[i].body.content);
      }
    }
  }

  /** A failed operation signs nothing and keeps the workspace. */
  lemma FailureKeepsState(cfg: Config, d: Disk, op: Op, revoking: set<Id>)
    requires Inv(cfg.deviceKey, d, revoking) && PlanOf(cfg, d, op).outcome.Failed?
    ensures Completed(cfg, d, op).ledger == d.ledger && Completed(cfg, d, op).vault == d.vault
  {
    FaultFreeIffVerified(d.ledger, Some(cfg.deviceKey));
    if op.Approve? {
      FailedApproveKeepsState(cfg, d, op, revoking);
    } else if op.RevokeDelivery? {
      FailedRevokeWritesNothing(cfg, d, op, revoking);
    } else if CommitOnly(op) {
      CommitShape(cfg, d, op);
    }
  }

  lemma FailedApproveKeepsState(cfg: Config, d: Disk, op: Op, revoking: set<Id>)
    requires Inv(cfg.deviceKey, d, revoking) && op.Approve? && PlanOf(cfg, d, op).outcome.Failed?
    ensures Completed(cfg, d, op).ledger == d.ledger && Completed(cfg, d, op).vault == d.vault
  {
    if DecisionGuard(d.vault, op.approval).Pass? {
      FailedSendKeepsState(cfg, d, op, FindApproval(d.vault.approvals, op.approval).value, revoking);
    }
  }

  lemma FailedSendKeepsState(cfg: Config, d: Disk, op: Op, j: nat, revoking: set<Id>)
    requires Sending(cfg.deviceKey, d, j, revoking) && op.Approve?
    requires PlanSend(cfg, d, d.vault.approvals[j], op.kernel, op.date, op.stamp).outcome.Failed?
    ensures var e := ApplyAll(d, PlanSend(cfg, d, d.vault.approvals[j], op.kernel, op.date, op.stamp).writes);
      e.ledger == d.ledger && e.vault == d.vault
  {
    var a := d.vault.approvals[j];
    FailedSendFacts(cfg, d, op, j, revoking);
    FailedSendRemoves(cfg, d, op, a);
    RemovalKeepsState(d, a);
  }

  lemma RemovalKeepsState(d: Disk, a: Approval)
    ensures var e := ApplyAll(d, if a.documentId in d.outbox then [RemoveEml(a.documentId)] else []);
      e.ledger == d.ledger && e.vault == d.vault
  {
    assert [RemoveEml(a.documentId)][1..] == [];
  }

  lemma FailedSendFacts(cfg: Config, d: Disk, op: Op, j: nat, revoking: set<Id>)
    requires Sending(cfg.deviceKey, d, j, revoking) && op.Approve?
    requires PlanSend(cfg, d, d.vault.approvals[j], op.kernel, op.date, op.stamp).outcome.Failed?
    ensures var a := d.vault.approvals[j];
      && op.kernel.None? && |CheckpointOf(d, a.id).completed| == 0
      && CheckpointShape(d, a) && FindApproval(d.vault.approvals, a.id) == Some(j)
      && FindDocument(d.vault.documents, a.documentId).Some?
  {
    SendSafe(cfg, d, j, op.kernel, op.date, op.stamp, revoking);
    SendingFacts(cfg.deviceKey, d, j, revoking);
  }

  lemma FailedSendRemoves(cfg: Config, d: Disk, op: Op, a: Approval)
    requires op.Approve? && op.kernel.None? && |CheckpointOf(d, a.id).completed| == 0
    requires CheckpointShape(d, a) && a.status == Pending
    requires FindApproval(d.vault.approvals, a.id).Some?
    requires d.vault.approvals[FindApproval(d.vault.approvals, a.id).value] == a
    requires FindDocument(d.vault.documents, a.documentId).Some?
    ensures PlanSend(cfg, d, a, op.kernel, op.date, op.stamp).writes
      == if a.documentId in d.outbox then [RemoveEml(a.documentId)] else []
  {
    SendDoesNotDiverge(d, a);
    ExecuteShape(d, a, op.kernel, MessageFor(d.vault, a.documentId, op.date));
  }

  lemma FailedRevokeWritesNothing(cfg: Config, d: Disk, op: Op, revoking: set<Id>)
    requires Inv(cfg.deviceKey, d, revoking) && op.RevokeDelivery? && PlanOf(cfg, d, op).outcome.Failed?
    requires ChainFault(d.ledger, Some(cfg.deviceKey)).Pass?
    ensures PlanOf(cfg, d, op).writes == []
  {
    if StatusOf(d.vault, op.document) == Some(ApprovedPendingDelivery) {
      RevokeFindsItsReceipt(cfg.deviceKey, d, revoking, op.document);
    }
  }

  lemma {:induction false} RunOpsKeepsUntorn(cfg: Config, d: Disk, ops: seq<Op>, revoking: set<Id>)
    requires Inv(cfg.deviceKey, d, revoking) && FreshOps(cfg, d, ops) && Untorn(d)
    ensures Untorn(RunOps(cfg, d, ops)) && Verified(RunOps(cfg, d, ops).ledger, cfg.deviceKey)
    ensures Backed(RunOps(cfg, d, ops).ledger, RunOps(cfg, d, ops).vault)
    decreases |ops|
  {
    if ops != [] {
      var writes := PlanOf(cfg, d, ops[0]).writes;
      assert Interrupted(cfg, d, ops[0], |writes|) == Completed(cfg, d, ops[0]);
      InterruptedSafe(cfg, d, ops[0], |writes|, revoking);
      CompletedKeepsUntorn(cfg, d, ops[0], revoking);
      RunOpsKeepsUntorn(cfg, Completed(cfg, d, ops[0]), ops[1..], Touch(revoking, ops[0]));
    }
  }

  /** A run without crashes, failing operations included, yields no finding at all. */
  lemma CrashFreeRunsAreClean(cfg: Config, ops: seq<Op>)
    requires FreshOps(cfg, EMPTY_DISK, ops)
    ensures Findings(cfg.deviceKey, RunOps(cfg, EMPTY_DISK, ops)) == []
  {
    EmptyInv(cfg.deviceKey);
    RunOpsKeepsUntorn(cfg, EMPTY_DISK, ops, {});
    FindingsMeaning(cfg.deviceKey, RunOps(cfg, EMPTY_DISK, ops));
  }
}
