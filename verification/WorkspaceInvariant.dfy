/**
  The invariant of the durable workspace files: the chain verifies, state never
  runs ahead of its signed events, document and approval statuses correspond,
  and a checkpointed send agrees with its record, its message and its evidence.
*/
module WorkspaceInvariant {
  import opened Wrappers
  import opened AuditLedger
  import opened WorkspaceTypes
  import opened WorkspaceOps
  import opened Integrity
  import WF = Workflow

  // --------------------------------------------------------------- lifecycle

  predicate Corresponds(status: DocumentStatus, a: Approval) {
    match status
    case Draft => false
    case PendingApproval => a.status == Pending && a.evidence == None
    case RejectedDocument => a.status == Rejected && a.evidence == None
    case _ => a.status == Approved && ClaimsOutbox(a) && a.evidence.value.outbox.value.emlOf == a.documentId
  }

  predicate HasApproval(approvals: seq<Approval>, document: Id) {
    exists j :: 0 <= j < |approvals| && approvals[j].documentId == document
  }

  /** At most one approval per document, and statuses that correspond. */
  ghost predicate Lifecycle(vault: Workspace) {
    && (forall i, j | 0 <= i < j < |vault.documents| :: vault.documents[i].id != vault.documents[j].id)
    && (forall i, j | 0 <= i < j < |vault.approvals| ::
          vault.approvals[i].id != vault.approvals[j].id
          && vault.approvals[i].documentId != vault.approvals[j].documentId)
    && (forall j | 0 <= j < |vault.approvals| :: InStep(vault, vault.approvals[j]))
    && (forall i | 0 <= i < |vault.documents| ::
          vault.documents[i].status != Draft ==> HasApproval(vault.approvals, vault.documents[i].id))
  }

  predicate InStep(vault: Workspace, a: Approval) {
    var status := StatusOf(vault, a.documentId);
    status.Some? && Corresponds(status.value, a)
  }

  // ----------------------------------------------------------------- effects

  /** The receipts of a send are those of its two steps, and the first names the saved record. */
  predicate CheckpointShape(d: Disk, a: Approval) {
    var c := CheckpointOf(d, a.id);
    && c.workflowId == WorkflowId(a.id)
    && |c.completed| <= 2
    && (|c.completed| >= 1 ==>
          && a.id in d.records
          && c.completed[0] == WF.Receipt(WorkflowId(a.id), 0, EXECUTE_STEP, RecordBytes(d.records[a.id]))
          && d.records[a.id].outbox.Some?
          && d.records[a.id].outbox.value.emlOf == a.documentId)
    && (|c.completed| == 2 ==> c.completed[1] == WF.Receipt(WorkflowId(a.id), 1, COMMIT_STEP, Committed))
    && (c.done ==> |c.completed| == 2)
  }

  /** The message hashes to the digest in the record. */
  predicate EmlMatches(d: Disk, a: Approval) {
    && a.documentId in d.outbox
    && a.id in d.records
    && d.records[a.id].outbox.Some?
    && Sha256(d.outbox[a.documentId]) == d.records[a.id].outbox.value.contentSha256
  }

  /** `revoking` holds the documents whose revocation was ever attempted. */
  predicate SendState(d: Disk, a: Approval, revoking: set<Id>) {
    var c := CheckpointOf(d, a.id);
    && CheckpointShape(d, a)
    && (a.status != Approved ==> |c.completed| <= 1)
    && (a.status != Approved && |c.completed| == 1 ==> EmlMatches(d, a))
    && (a.status == Approved ==>
          && |c.completed| >= 1
          && a.evidence == Some(d.records[a.id])
          && (a.documentId in d.outbox ==> EmlMatches(d, a))
          && (a.documentId !in revoking ==> a.documentId in d.outbox)
          && (StatusOf(d.vault, a.documentId) == Some(Revoked) ==> a.documentId !in d.outbox))
  }

  ghost predicate Effects(d: Disk, revoking: set<Id>) {
    && (forall id <- d.outbox.Keys :: HasApproval(d.vault.approvals, id))
    && (forall id <- d.records.Keys :: FindApproval(d.vault.approvals, id).Some?)
    && (forall id <- d.checkpoints.Keys :: FindApproval(d.vault.approvals, id).Some?)
    && (forall j | 0 <= j < |d.vault.approvals| :: SendState(d, d.vault.approvals[j], revoking))
  }

  ghost predicate Inv(key: Key, d: Disk, revoking: set<Id>) {
    Verified(d.ledger, key) && Backed(d.ledger, d.vault) && Lifecycle(d.vault) && Effects(d, revoking)
  }

  // ----------------------------------------------------------------- lookups

  lemma {:induction false} FindDocumentSameIds(a: seq<Document>, b: seq<Document>, id: Id)
    requires |a| == |b| && forall i | 0 <= i < |a| :: a[i].id == b[i].id
    ensures FindDocument(a, id) == FindDocument(b, id)
  {
    if a != [] {
      FindDocumentSameIds(a[1..], b[1..], id);
    }
  }

  lemma {:induction false} FindDocumentAppend(a: seq<Document>, x: Document, id: Id)
    ensures FindDocument(a + [x], id) ==
      if FindDocument(a, id).Some? then FindDocument(a, id) else if x.id == id then Some(|a|) else None
  {
    if a == [] {
      assert a + [x] == [x];
    } else {
      assert (a + [x])[1..] == a[1..] + [x];
      FindDocumentAppend(a[1..], x, id);
    }
  }

  lemma {:induction false} FindDocumentAt(a: seq<Document>, i: nat)
    requires i < |a| && forall i, j | 0 <= i < j < |a| :: a[i].id != a[j].id
    ensures FindDocument(a, a[i].id) == Some(i)
  {
    if i > 0 {
      FindDocumentAt(a[1..], i - 1);
    }
  }

  lemma {:induction false} FindApprovalSameIds(a: seq<Approval>, b: seq<Approval>, id: Id)
    requires |a| == |b| && forall i | 0 <= i < |a| :: a[i].id == b[i].id
    ensures FindApproval(a, id) == FindApproval(b, id)
  {
    if a != [] {
      FindApprovalSameIds(a[1..], b[1..], id);
    }
  }

  lemma {:induction false} FindApprovalAppend(a: seq<Approval>, x: Approval, id: Id)
    ensures FindApproval(a, id).Some? ==> FindApproval(a + [x], id) == FindApproval(a, id)
    ensures FindApproval(a, id).None? ==> FindApproval(a + [x], id) == if x.id == id then Some(|a|) else None
  {
    if a == [] {
      assert a + [x] == [x];
    } else {
      assert (a + [x])[1..] == a[1..] + [x];
      FindApprovalAppend(a[1..], x, id);
    }
  }

  lemma {:induction false} FindCustomerAppend(a: seq<Customer>, x: Customer, id: Id)
    ensures FindCustomer(a, id).Some? ==> FindCustomer(a + [x], id).Some?
    ensures FindCustomer(a + [x], x.id).Some?
    ensures FindCustomer(a + [x], id).Some? ==> FindCustomer(a, id).Some? || x.id == id
  {
    if a == [] {
      assert a + [x] == [x];
    } else {
      assert (a + [x])[1..] == a[1..] + [x];
      FindCustomerAppend(a[1..], x, id);
    }
  }

  /** What a status change does to every lookup. */
  lemma StatusAfterSet(vault: Workspace, i: nat, status: DocumentStatus, id: Id)
    requires Lifecycle(vault) && i < |vault.documents|
    ensures StatusOf(SetStatus(vault, i, status), id)
         == if id == vault.documents[i].id then Some(status) else StatusOf(vault, id)
  {
    FindDocumentSameIds(vault.documents, SetStatus(vault, i, status).documents, id);
    FindDocumentAt(vault.documents, i);
  }

  lemma StatusAfterAppend(vault: Workspace, x: Document, id: Id)
    ensures var longer := vault.(documents := vault.documents + [x]);
      StatusOf(longer, id) ==
        if StatusOf(vault, id).Some? then StatusOf(vault, id) else if x.id == id then Some(x.status) else None
  {
    FindDocumentAppend(vault.documents, x, id);
  }

  // --------------------------------------------------- each vault write alone

  lemma HasMonotone(ledger: Ledger, longer: Ledger, action: Action, resource: Resource)
    requires ledger <= longer && Has(ledger, action, resource)
    ensures Has(longer, action, resource)
  {
    var i :| 0 <= i < |ledger| && ledger[i].body.content.action == action && ledger[i].body.content.resource == resource;
    assert longer[i] == ledger[i];
  }

  lemma BackedMonotone(ledger: Ledger, longer: Ledger, vault: Workspace)
    requires ledger <= longer && Backed(ledger, vault)
    ensures Backed(longer, vault)
  {
    forall action, resource | Has(ledger, action, resource) ensures Has(longer, action, resource) {
      HasMonotone(ledger, longer, action, resource);
    }
  }

  /** A ledger write that extends the chain keeps the invariant. */
  lemma LedgerWriteSafe(key: Key, d: Disk, revoking: set<Id>, longer: Ledger)
    requires Inv(key, d, revoking) && Verified(longer, key) && d.ledger <= longer
    ensures Inv(key, d.(ledger := longer), revoking)
  {
    BackedMonotone(d.ledger, longer, d.vault);
    var d' := d.(ledger := longer);
    forall j | 0 <= j < |d.vault.approvals| ensures SendState(d', d.vault.approvals[j], revoking) {
      SameSend(d, d', d.vault.approvals[j], revoking);
    }
  }

  /** The state of a send only depends on its own files and its document's status. */
  lemma SameSend(d: Disk, d': Disk, a: Approval, revoking: set<Id>)
    requires SendState(d, a, revoking)
    requires CheckpointOf(d', a.id) == CheckpointOf(d, a.id)
    requires a.id in d.records ==> a.id in d'.records && d'.records[a.id] == d.records[a.id]
    requires (a.documentId in d'.outbox) == (a.documentId in d.outbox)
    requires a.documentId in d.outbox ==> d'.outbox[a.documentId] == d.outbox[a.documentId]
    requires StatusOf(d'.vault, a.documentId) == StatusOf(d.vault, a.documentId)
    ensures SendState(d', a, revoking)
  {
  }

  /** A workspace write that keeps customers, documents and approvals. */
  lemma SideWriteSafe(key: Key, d: Disk, revoking: set<Id>, vault: Workspace)
    requires Inv(key, d, revoking)
    requires vault.customers == d.vault.customers && vault.documents == d.vault.documents
    requires vault.approvals == d.vault.approvals
    ensures Inv(key, d.(vault := vault), revoking)
  {
    forall a <- vault.approvals ensures InStep(vault, a) {
      assert InStep(d.vault, a);
    }
    forall a <- vault.approvals ensures SendState(d.(vault := vault), a, revoking) {
      SameSend(d, d.(vault := vault), a, revoking);
    }
  }

  lemma AddCustomerSafe(key: Key, d: Disk, revoking: set<Id>, c: Customer)
    requires Inv(key, d, revoking) && Has(d.ledger, CustomerCreate, CustomerResource(c.id))
    ensures Inv(key, d.(vault := d.vault.(customers := d.vault.customers + [c])), revoking)
  {
    var vault := d.vault.(customers := d.vault.customers + [c]);
    forall a <- vault.approvals ensures InStep(vault, a) {
      assert InStep(d.vault, a);
    }
    forall a <- vault.approvals ensures SendState(d.(vault := vault), a, revoking) {
      SameSend(d, d.(vault := vault), a, revoking);
    }
  }

  lemma NewDraftKeepsLifecycle(vault: Workspace, x: Document)
    requires Lifecycle(vault) && x.status == Draft && FindDocument(vault.documents, x.id).None?
    ensures Lifecycle(vault.(documents := vault.documents + [x]))
  {
    var after := vault.(documents := vault.documents + [x]);
    forall j | 0 <= j < |after.approvals| ensures InStep(after, after.approvals[j]) {
      assert InStep(vault, after.approvals[j]);
      StatusAfterAppend(vault, x, after.approvals[j].documentId);
    }
    forall i | 0 <= i < |vault.documents| ensures vault.documents[i].id != x.id {
      assert vault.documents[i] in vault.documents;
    }
  }

  lemma NewDraftKeepsEffects(d: Disk, revoking: set<Id>, x: Document)
    requires Effects(d, revoking) && Lifecycle(d.vault)
    ensures Effects(d.(vault := d.vault.(documents := d.vault.documents + [x])), revoking)
  {
    var d' := d.(vault := d.vault.(documents := d.vault.documents + [x]));
    forall j | 0 <= j < |d.vault.approvals| ensures SendState(d', d.vault.approvals[j], revoking) {
      assert InStep(d.vault, d.vault.approvals[j]);
      StatusAfterAppend(d.vault, x, d.vault.approvals[j].documentId);
      SameSend(d, d', d.vault.approvals[j], revoking);
    }
  }

  lemma AddDocumentSafe(key: Key, d: Disk, revoking: set<Id>, x: Document)
    requires Inv(key, d, revoking) && x.status == Draft && FindDocument(d.vault.documents, x.id).None?
    ensures Inv(key, d.(vault := d.vault.(documents := d.vault.documents + [x])), revoking)
  {
    NewDraftKeepsLifecycle(d.vault, x);
    NewDraftKeepsBacked(d.ledger, d.vault, x);
    NewDraftKeepsEffects(d, revoking, x);
  }

  lemma NewDraftKeepsBacked(ledger: Ledger, vault: Workspace, x: Document)
    requires Backed(ledger, vault) && x.status == Draft
    ensures Backed(ledger, vault.(documents := vault.documents + [x]))
  {
  }

  /** A submission: its document becomes pending and gets its approval. */
  ghost function Requested(vault: Workspace, i: nat, a: Approval): Workspace
    requires i < |vault.documents|
  {
    var changed := SetStatus(vault, i, PendingApproval);
    changed.(approvals := changed.approvals + [a])
  }

  lemma DraftHasNoApproval(vault: Workspace, i: nat)
    requires Lifecycle(vault) && i < |vault.documents| && vault.documents[i].status == Draft
    ensures forall k | 0 <= k < |vault.approvals| :: vault.approvals[k].documentId != vault.documents[i].id
  {
    FindDocumentAt(vault.documents, i);
    forall k | 0 <= k < |vault.approvals| ensures vault.approvals[k].documentId != vault.documents[i].id {
      assert InStep(vault, vault.approvals[k]);
    }
  }

  lemma StatusAfterRequest(vault: Workspace, i: nat, a: Approval, id: Id)
    requires Lifecycle(vault) && i < |vault.documents| && a.documentId == vault.documents[i].id
    ensures StatusOf(Requested(vault, i, a), id)
         == if id == a.documentId then Some(PendingApproval) else StatusOf(vault, id)
  {
    StatusAfterSet(vault, i, PendingApproval, id);
  }

  lemma RequestKeepsLifecycle(vault: Workspace, i: nat, a: Approval)
    requires Lifecycle(vault) && i < |vault.documents|
    requires vault.documents[i].status == Draft && a.documentId == vault.documents[i].id
    requires a.status == Pending && a.evidence == None && FindApproval(vault.approvals, a.id).None?
    ensures Lifecycle(Requested(vault, i, a))
  {
    var after := Requested(vault, i, a);
    var n := |vault.approvals|;
    DraftHasNoApproval(vault, i);
    forall k | 0 <= k < |after.approvals| ensures InStep(after, after.approvals[k]) {
      StatusAfterRequest(vault, i, a, after.approvals[k].documentId);
      if k < n {
        assert InStep(vault, vault.approvals[k]);
      }
    }
    forall k | 0 <= k < n ensures after.approvals[k].id != a.id && after.approvals[k].documentId != a.documentId {
      assert vault.approvals[k] in vault.approvals;
    }
    forall k | 0 <= k < |after.documents| && after.documents[k].status != Draft
      ensures HasApproval(after.approvals, after.documents[k].id)
    {
      ApprovalsAppended(vault, after, a);
    }
  }

  lemma RequestSafe(key: Key, d: Disk, revoking: set<Id>, i: nat, a: Approval)
    requires Inv(key, d, revoking) && i < |d.vault.documents|
    requires d.vault.documents[i].status == Draft && a.documentId == d.vault.documents[i].id
    requires a.status == Pending && a.evidence == None && FindApproval(d.vault.approvals, a.id).None?
    ensures Inv(key, d.(vault := Requested(d.vault, i, a)), revoking)
  {
    RequestKeepsLifecycle(d.vault, i, a);
    DraftHasNoApproval(d.vault, i);
    RequestKeepsBacked(d, i, a);
    RequestStatuses(d.vault, i, a);
    RequestKeepsEffects(d, revoking, i, a);
  }

  lemma RequestStatuses(vault: Workspace, i: nat, a: Approval)
    requires Lifecycle(vault) && i < |vault.documents| && a.documentId == vault.documents[i].id
    ensures forall id :: StatusOf(Requested(vault, i, a), id)
                      == if id == a.documentId then Some(PendingApproval) else StatusOf(vault, id)
  {
    forall id ensures StatusOf(Requested(vault, i, a), id)
                   == if id == a.documentId then Some(PendingApproval) else StatusOf(vault, id) {
      StatusAfterRequest(vault, i, a, id);
    }
  }

  lemma RequestKeepsBacked(d: Disk, i: nat, a: Approval)
    requires Backed(d.ledger, d.vault) && i < |d.vault.documents| && a.evidence == None
    ensures Backed(d.ledger, Requested(d.vault, i, a))
  {
  }

  lemma RequestKeepsEffects(d: Disk, revoking: set<Id>, i: nat, a: Approval)
    requires Effects(d, revoking) && i < |d.vault.documents|
    requires a.status == Pending && FindApproval(d.vault.approvals, a.id).None?
    requires forall k | 0 <= k < |d.vault.approvals| :: d.vault.approvals[k].documentId != a.documentId
    requires forall id :: StatusOf(Requested(d.vault, i, a), id)
                      == if id == a.documentId then Some(PendingApproval) else StatusOf(d.vault, id)
    ensures Effects(d.(vault := Requested(d.vault, i, a)), revoking)
  {
    var d' := d.(vault := Requested(d.vault, i, a));
    ApprovalsAppended(d.vault, d'.vault, a);
    forall id | FindApproval(d.vault.approvals, id).Some? ensures FindApproval(d'.vault.approvals, id).Some? {
      FindApprovalAppend(d.vault.approvals, a, id);
    }
    forall k | 0 <= k < |d'.vault.approvals| ensures SendState(d', d'.vault.approvals[k], revoking) {
      if k < |d.vault.approvals| {
        SameSend(d, d', d.vault.approvals[k], revoking);
      }
    }
  }

  lemma ApprovalsAppended(before: Workspace, after: Workspace, a: Approval)
    requires after.approvals == before.approvals + [a]
    ensures forall id :: HasApproval(after.approvals, id) <==> (HasApproval(before.approvals, id) || a.documentId == id)
  {
    forall id ensures HasApproval(after.approvals, id) <==> HasApproval(before.approvals, id) || a.documentId == id {
      if HasApproval(before.approvals, id) {
        var j :| 0 <= j < |before.approvals| && before.approvals[j].documentId == id;
        assert after.approvals[j].documentId == id;
      }
      assert after.approvals[|before.approvals|] == a;
    }
  }

  /** A decision: approval `j` and its document change status together. */
  ghost function Decided(vault: Workspace, j: nat, i: nat, a: Approval, status: DocumentStatus): Workspace
    requires i < |vault.documents| && j < |vault.approvals|
  {
    var changed := SetStatus(vault, i, status);
    changed.(approvals := changed.approvals[j := a])
  }

  lemma DecisionKeepsLifecycle(vault: Workspace, j: nat, i: nat, a: Approval, status: DocumentStatus)
    requires Lifecycle(vault) && i < |vault.documents| && j < |vault.approvals|
    requires a.id == vault.approvals[j].id && a.documentId == vault.approvals[j].documentId
    requires a.documentId == vault.documents[i].id && Corresponds(status, a)
    ensures Lifecycle(Decided(vault, j, i, a, status))
    ensures forall id :: StatusOf(Decided(vault, j, i, a, status), id)
                      == if id == a.documentId then Some(status) else StatusOf(vault, id)
    ensures forall id :: HasApproval(vault.approvals, id) ==> HasApproval(Decided(vault, j, i, a, status).approvals, id)
    ensures forall id :: FindApproval(Decided(vault, j, i, a, status).approvals, id) == FindApproval(vault.approvals, id)
  {
    var after := Decided(vault, j, i, a, status);
    forall id ensures StatusOf(after, id) == if id == a.documentId then Some(status) else StatusOf(vault, id) {
      StatusAfterSet(vault, i, status, id);
    }
    forall id ensures FindApproval(after.approvals, id) == FindApproval(vault.approvals, id) {
      FindApprovalSameIds(vault.approvals, after.approvals, id);
    }
    forall id | HasApproval(vault.approvals, id) ensures HasApproval(after.approvals, id) {
      var k :| 0 <= k < |vault.approvals| && vault.approvals[k].documentId == id;
      assert after.approvals[k].documentId == id;
    }
    forall k | 0 <= k < |after.approvals| ensures InStep(after, after.approvals[k]) {
      assert InStep(vault, vault.approvals[k]);
    }
    assert HasApproval(vault.approvals, a.documentId);
  }

  lemma GrantSafe(key: Key, d: Disk, revoking: set<Id>, j: nat, i: nat, a: Approval)
    requires Inv(key, d, revoking) && i < |d.vault.documents| && j < |d.vault.approvals|
    requires d.vault.approvals[j].status == Pending && a.status == Approved
    requires a.id == d.vault.approvals[j].id && a.documentId == d.vault.approvals[j].documentId
    requires a.documentId == d.vault.documents[i].id
    requires |CheckpointOf(d, a.id).completed| >= 1 && a.id in d.records && a.evidence == Some(d.records[a.id])
    requires Has(d.ledger, ApprovalGranted, DocumentResource(a.documentId))
    requires Has(d.ledger, FileWritten, DocumentResource(a.documentId))
    ensures Inv(key, d.(vault := Decided(d.vault, j, i, a, ApprovedPendingDelivery)), revoking)
  {
    DecisionKeepsLifecycle(d.vault, j, i, a, ApprovedPendingDelivery);
    GrantKeepsEffects(d, revoking, j, i, a);
    BackedAfterDecision(d, j, i, a, ApprovedPendingDelivery);
  }

  lemma GrantKeepsEffects(d: Disk, revoking: set<Id>, j: nat, i: nat, a: Approval)
    requires Effects(d, revoking) && Lifecycle(d.vault) && i < |d.vault.documents| && j < |d.vault.approvals|
    requires d.vault.approvals[j].status == Pending && a.status == Approved
    requires a.id == d.vault.approvals[j].id && a.documentId == d.vault.approvals[j].documentId
    requires a.documentId == d.vault.documents[i].id && Corresponds(ApprovedPendingDelivery, a)
    requires |CheckpointOf(d, a.id).completed| >= 1 && a.id in d.records && a.evidence == Some(d.records[a.id])
    ensures Effects(d.(vault := Decided(d.vault, j, i, a, ApprovedPendingDelivery)), revoking)
  {
    var after := Decided(d.vault, j, i, a, ApprovedPendingDelivery);
    DecisionKeepsLifecycle(d.vault, j, i, a, ApprovedPendingDelivery);
    GrantedState(d, revoking, after, d.vault.approvals[j], a);
    OthersSend(d, revoking, after, j, a);
  }

  /** The send of an approval that is granted. */
  lemma GrantedState(d: Disk, revoking: set<Id>, after: Workspace, before: Approval, a: Approval)
    requires SendState(d, before, revoking) && before.status == Pending
    requires a.id == before.id && a.documentId == before.documentId && a.status == Approved
    requires |CheckpointOf(d, a.id).completed| >= 1 && a.id in d.records && a.evidence == Some(d.records[a.id])
    requires StatusOf(after, a.documentId) == Some(ApprovedPendingDelivery)
    ensures SendState(d.(vault := after), a, revoking)
  {
  }

  lemma RejectSafe(key: Key, d: Disk, revoking: set<Id>, j: nat, i: nat, a: Approval)
    requires Inv(key, d, revoking) && i < |d.vault.documents| && j < |d.vault.approvals|
    requires d.vault.approvals[j].status == Pending && a.status == Rejected && a.evidence == None
    requires a.id == d.vault.approvals[j].id && a.documentId == d.vault.approvals[j].documentId
    requires a.documentId == d.vault.documents[i].id
    ensures Inv(key, d.(vault := Decided(d.vault, j, i, a, RejectedDocument)), revoking)
  {
    var after := Decided(d.vault, j, i, a, RejectedDocument);
    assert SendState(d, d.vault.approvals[j], revoking);
    DecisionKeepsLifecycle(d.vault, j, i, a, RejectedDocument);
    OthersSend(d, revoking, after, j, a);
    BackedAfterDecision(d, j, i, a, RejectedDocument);
  }

  /** Deciding one approval leaves the sends of all others as they were. */
  lemma OthersSend(d: Disk, revoking: set<Id>, after: Workspace, j: nat, a: Approval)
    requires j < |d.vault.approvals| && after.approvals == d.vault.approvals[j := a]
    requires Lifecycle(d.vault)
    requires forall k | 0 <= k < |d.vault.approvals| :: SendState(d, d.vault.approvals[k], revoking)
    requires a.documentId == d.vault.approvals[j].documentId
    requires SendState(d.(vault := after), a, revoking)
    requires forall id | id != a.documentId :: StatusOf(after, id) == StatusOf(d.vault, id)
    ensures forall k | 0 <= k < |after.approvals| :: SendState(d.(vault := after), after.approvals[k], revoking)
  {
    forall k | 0 <= k < |after.approvals| ensures SendState(d.(vault := after), after.approvals[k], revoking) {
      if k != j {
        SameSend(d, d.(vault := after), d.vault.approvals[k], revoking);
      }
    }
  }

  lemma BackedAfterDecision(d: Disk, j: nat, i: nat, a: Approval, status: DocumentStatus)
    requires Backed(d.ledger, d.vault) && i < |d.vault.documents| && j < |d.vault.approvals|
    requires DocumentBacked(d.ledger, d.vault.documents[i].(status := status))
    requires ClaimsOutbox(a) ==> Has(d.ledger, FileWritten, DocumentResource(a.documentId))
    ensures Backed(d.ledger, Decided(d.vault, j, i, a, status))
  {
  }

  /** A granted document whose status changes to revoked or delivered. */
  ghost predicate Settling(vault: Workspace, i: nat, status: DocumentStatus) {
    && i < |vault.documents| && vault.documents[i].status == ApprovedPendingDelivery
    && (status == Revoked || status == Delivered)
  }

  lemma SettleKeepsLifecycle(vault: Workspace, i: nat, status: DocumentStatus)
    requires Lifecycle(vault) && Settling(vault, i, status)
    ensures Lifecycle(SetStatus(vault, i, status))
  {
    var after := SetStatus(vault, i, status);
    FindDocumentAt(vault.documents, i);
    forall k | 0 <= k < |after.approvals| ensures InStep(after, after.approvals[k]) {
      assert InStep(vault, after.approvals[k]);
      StatusAfterSet(vault, i, status, after.approvals[k].documentId);
    }
  }

  lemma SettleKeepsBacked(ledger: Ledger, vault: Workspace, i: nat, status: DocumentStatus)
    requires Backed(ledger, vault) && Settling(vault, i, status)
    requires Has(ledger, if status == Revoked then EffectRevoked else DeliveryConfirmed,
                 DocumentResource(vault.documents[i].id))
    ensures Backed(ledger, SetStatus(vault, i, status))
  {
    assert DocumentBacked(ledger, vault.documents[i]);
  }

  lemma SettleKeepsSend(d: Disk, revoking: set<Id>, i: nat, status: DocumentStatus, a: Approval)
    requires Lifecycle(d.vault) && Settling(d.vault, i, status) && SendState(d, a, revoking)
    requires status == Revoked ==> d.vault.documents[i].id !in d.outbox
    ensures SendState(d.(vault := SetStatus(d.vault, i, status)), a, revoking)
  {
    StatusAfterSet(d.vault, i, status, a.documentId);
  }

  lemma SettleKeepsEffects(d: Disk, revoking: set<Id>, i: nat, status: DocumentStatus)
    requires Lifecycle(d.vault) && Effects(d, revoking) && Settling(d.vault, i, status)
    requires status == Revoked ==> d.vault.documents[i].id !in d.outbox
    ensures Effects(d.(vault := SetStatus(d.vault, i, status)), revoking)
  {
    forall k | 0 <= k < |d.vault.approvals|
      ensures SendState(d.(vault := SetStatus(d.vault, i, status)), d.vault.approvals[k], revoking)
    {
      SettleKeepsSend(d, revoking, i, status, d.vault.approvals[k]);
    }
  }

  /** Revoking and confirming change a granted document only. */
  lemma SettleSafe(key: Key, d: Disk, revoking: set<Id>, i: nat, status: DocumentStatus)
    requires Inv(key, d, revoking) && i < |d.vault.documents|
    requires d.vault.documents[i].status == ApprovedPendingDelivery
    requires status == Revoked || status == Delivered
    requires status == Revoked ==>
      d.vault.documents[i].id !in d.outbox && Has(d.ledger, EffectRevoked, DocumentResource(d.vault.documents[i].id))
    requires status == Delivered ==> Has(d.ledger, DeliveryConfirmed, DocumentResource(d.vault.documents[i].id))
    ensures Inv(key, d.(vault := SetStatus(d.vault, i, status)), revoking)
  {
    SettleKeepsLifecycle(d.vault, i, status);
    SettleKeepsBacked(d.ledger, d.vault, i, status);
    SettleKeepsEffects(d, revoking, i, status);
  }
}
