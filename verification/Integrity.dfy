/** The self-audit of `apps/cli/src/workspace/reporting.rs` and what its verdict means. */
module Integrity {
  import opened Wrappers
  import opened AuditLedger
  import opened WorkspaceTypes
  import opened WorkspaceOps

  datatype Severity = Critical | Warning

  datatype Problem =
    | ChainUnverified
    | CustomerWithoutEvent
    | ApprovedWithoutGrant
    | RevokedWithoutEvent
    | DeliveredWithoutEvent
    | OutboxWithoutWrite
    | TornTail

  datatype Finding = Finding(severity: Severity, resource: Option<Resource>, problem: Problem)

  datatype IntegrityReport = IntegrityReport(chainVerified: bool, events: nat, ok: bool, findings: seq<Finding>)

  // ---------------------------------------------------- state needs evidence

  predicate Has(ledger: Ledger, action: Action, resource: Resource) {
    exists i :: 0 <= i < |ledger| && ledger[i].body.content.action == action && ledger[i].body.content.resource == resource
  }

  predicate Granted(status: DocumentStatus) { status in {ApprovedPendingDelivery, Revoked, Delivered} }

  predicate ClaimsOutbox(a: Approval) { a.evidence.Some? && a.evidence.value.outbox.Some? }

  predicate DocumentBacked(ledger: Ledger, x: Document) {
    && (Granted(x.status) ==> Has(ledger, ApprovalGranted, DocumentResource(x.id)))
    && (x.status == Revoked ==> Has(ledger, EffectRevoked, DocumentResource(x.id)))
    && (x.status == Delivered ==> Has(ledger, DeliveryConfirmed, DocumentResource(x.id)))
  }

  /** Every state that grants power or records an effect has its signed event. */
  ghost predicate Backed(ledger: Ledger, vault: Workspace) {
    && (forall c <- vault.customers :: Has(ledger, CustomerCreate, CustomerResource(c.id)))
    && (forall x <- vault.documents :: DocumentBacked(ledger, x))
    && (forall a <- vault.approvals :: ClaimsOutbox(a) ==> Has(ledger, FileWritten, DocumentResource(a.documentId)))
  }

  // ------------------------------------------------------ evidence ahead of state

  function StatusOf(vault: Workspace, id: Id): Option<DocumentStatus> {
    var i := FindDocument(vault.documents, id);
    if i.Some? then Some(vault.documents[i.value].status) else None
  }

  function SubjectId(resource: Resource): Option<Id> {
    match resource
    case CustomerResource(id) => Some(id)
    case DocumentResource(id) => Some(id)
    case _ => None
  }

  /** The state an event stands for is not in the workspace. */
  predicate Torn(e: AuditEntry, vault: Workspace) {
    var subject := SubjectId(e.resource);
    var status := if subject.Some? then StatusOf(vault, subject.value) else None;
    match e.action
    case CustomerCreate => subject.Some? && FindCustomer(vault.customers, subject.value).None?
    case ApprovalGranted => !(status.Some? && Granted(status.value))
    case EffectRevoked => status != Some(Revoked)
    case DeliveryConfirmed => status != Some(Delivered)
    case _ => false
  }

  /** Where the trailing events with the resource of the last one begin, looking back from `n`. */
  function TrailStart(ledger: Ledger, n: nat): (start: nat)
    requires n <= |ledger|
    ensures start <= n
    ensures forall i | start <= i < n :: ledger[i].body.content.resource == ledger[|ledger| - 1].body.content.resource
    ensures start == 0 || ledger[start - 1].body.content.resource != ledger[|ledger| - 1].body.content.resource
  {
    if n == 0 || ledger[n - 1].body.content.resource != ledger[|ledger| - 1].body.content.resource then n
    else TrailStart(ledger, n - 1)
  }

  predicate TailTorn(ledger: Ledger, vault: Workspace) {
    exists i :: TrailStart(ledger, |ledger|) <= i < |ledger| && Torn(ledger[i].body.content, vault)
  }

  // ---------------------------------------------------------------- findings

  function CustomerFindings(ledger: Ledger, customers: seq<Customer>): seq<Finding> {
    if customers == [] then []
    else
      var c := customers[|customers| - 1];
      CustomerFindings(ledger, customers[..|customers| - 1])
      + (if Has(ledger, CustomerCreate, CustomerResource(c.id)) then []
         else [Finding(Critical, Some(CustomerResource(c.id)), CustomerWithoutEvent)])
  }

  function DocumentFinding(ledger: Ledger, x: Document): seq<Finding> {
    var resource := DocumentResource(x.id);
    (if Granted(x.status) && !Has(ledger, ApprovalGranted, resource)
     then [Finding(Critical, Some(resource), ApprovedWithoutGrant)] else [])
    + (if x.status == Revoked && !Has(ledger, EffectRevoked, resource)
       then [Finding(Critical, Some(resource), RevokedWithoutEvent)] else [])
    + (if x.status == Delivered && !Has(ledger, DeliveryConfirmed, resource)
       then [Finding(Critical, Some(resource), DeliveredWithoutEvent)] else [])
  }

  function DocumentFindings(ledger: Ledger, documents: seq<Document>): seq<Finding> {
    if documents == [] then []
    else DocumentFindings(ledger, documents[..|documents| - 1]) + DocumentFinding(ledger, documents[|documents| - 1])
  }

  function ApprovalFindings(ledger: Ledger, approvals: seq<Approval>): seq<Finding> {
    if approvals == [] then []
    else
      var a := approvals[|approvals| - 1];
      var resource := DocumentResource(a.documentId);
      ApprovalFindings(ledger, approvals[..|approvals| - 1])
      + (if ClaimsOutbox(a) && !Has(ledger, FileWritten, resource)
         then [Finding(Critical, Some(resource), OutboxWithoutWrite)] else [])
  }

  function CriticalFindings(ledger: Ledger, vault: Workspace): seq<Finding> {
    CustomerFindings(ledger, vault.customers) + DocumentFindings(ledger, vault.documents)
    + ApprovalFindings(ledger, vault.approvals)
  }

  function Findings(key: Key, d: Disk): seq<Finding> {
    if ChainFault(d.ledger, Some(key)).Fail? then [Finding(Critical, None, ChainUnverified)]
    else
      CriticalFindings(d.ledger, d.vault)
      + (if d.ledger != [] && TailTorn(d.ledger, d.vault)
         then [Finding(Warning, Some(d.ledger[|d.ledger| - 1].body.content.resource), TornTail)] else [])
  }

  lemma {:induction false} CustomerFindingsMeaning(ledger: Ledger, customers: seq<Customer>)
    ensures CustomerFindings(ledger, customers) == []
      <==> forall c <- customers :: Has(ledger, CustomerCreate, CustomerResource(c.id))
    ensures forall f <- CustomerFindings(ledger, customers) :: f.severity == Critical
  {
    if customers != [] {
      var n := |customers| - 1;
      CustomerFindingsMeaning(ledger, customers[..n]);
      assert customers == customers[..n] + [customers[n]];
    }
  }

  lemma {:induction false} DocumentFindingsMeaning(ledger: Ledger, documents: seq<Document>)
    ensures DocumentFindings(ledger, documents) == [] <==> forall x <- documents :: DocumentBacked(ledger, x)
    ensures forall f <- DocumentFindings(ledger, documents) :: f.severity == Critical
  {
    if documents != [] {
      var n := |documents| - 1;
      DocumentFindingsMeaning(ledger, documents[..n]);
      assert documents == documents[..n] + [documents[n]];
      assert DocumentFinding(ledger, documents[n]) == [] <==> DocumentBacked(ledger, documents[n]);
    }
  }

  lemma {:induction false} ApprovalFindingsMeaning(ledger: Ledger, approvals: seq<Approval>)
    ensures ApprovalFindings(ledger, approvals) == []
      <==> forall a <- approvals :: ClaimsOutbox(a) ==> Has(ledger, FileWritten, DocumentResource(a.documentId))
    ensures forall f <- ApprovalFindings(ledger, approvals) :: f.severity == Critical
  {
    if approvals != [] {
      var n := |approvals| - 1;
      ApprovalFindingsMeaning(ledger, approvals[..n]);
      assert approvals == approvals[..n] + [approvals[n]];
    }
  }

  lemma CriticalFindingsMeaning(ledger: Ledger, vault: Workspace)
    ensures CriticalFindings(ledger, vault) == [] <==> Backed(ledger, vault)
    ensures forall f <- CriticalFindings(ledger, vault) :: f.severity == Critical
  {
    CustomerFindingsMeaning(ledger, vault.customers);
    DocumentFindingsMeaning(ledger, vault.documents);
    ApprovalFindingsMeaning(ledger, vault.approvals);
  }

  /** No event of the chain says so. */
  predicate Lacks(ledger: Ledger, action: Action, resource: Resource) {
    forall i | 0 <= i < |ledger| :: ledger[i].body.content.action != action || ledger[i].body.content.resource != resource
  }

  predicate LacksEvent(ledger: Ledger, x: Document, f: Finding, applies: bool, action: Action) {
    f.resource == Some(DocumentResource(x.id)) && applies && Lacks(ledger, action, DocumentResource(x.id))
  }

  /** The finding is about this customer, and the event it lacks. */
  predicate ReportsCustomer(ledger: Ledger, c: Customer, f: Finding) {
    && f == Finding(Critical, Some(CustomerResource(c.id)), CustomerWithoutEvent)
    && Lacks(ledger, CustomerCreate, CustomerResource(c.id))
  }

  predicate ReportsDocument(ledger: Ledger, x: Document, f: Finding) {
    && f.severity == Critical
    && match f.problem
       case ApprovedWithoutGrant =>
         LacksEvent(ledger, x, f, x.status in {ApprovedPendingDelivery, Revoked, Delivered}, ApprovalGranted)
       case RevokedWithoutEvent => LacksEvent(ledger, x, f, x.status == Revoked, EffectRevoked)
       case DeliveredWithoutEvent => LacksEvent(ledger, x, f, x.status == Delivered, DeliveryConfirmed)
       case _ => false
  }

  predicate ReportsApproval(ledger: Ledger, a: Approval, f: Finding) {
    && f == Finding(Critical, Some(DocumentResource(a.documentId)), OutboxWithoutWrite)
    && a.evidence.Some? && a.evidence.value.outbox.Some?
    && Lacks(ledger, FileWritten, DocumentResource(a.documentId))
  }

  lemma DocumentFindingExactly(ledger: Ledger, x: Document, f: Finding)
    ensures f in DocumentFinding(ledger, x) <==> ReportsDocument(ledger, x, f)
  {
  }

  lemma {:induction false} CustomerFindingsExactly(ledger: Ledger, customers: seq<Customer>, f: Finding)
    ensures f in CustomerFindings(ledger, customers) <==> exists c <- customers :: ReportsCustomer(ledger, c, f)
  {
    if customers != [] {
      var n := |customers| - 1;
      CustomerFindingsExactly(ledger, customers[..n], f);
      var resource := CustomerResource(customers[n].id);
      var last := if Has(ledger, CustomerCreate, resource) then [] else [Finding(Critical, Some(resource), CustomerWithoutEvent)];
      assert f in last <==> ReportsCustomer(ledger, customers[n], f);
      assert CustomerFindings(ledger, customers) == CustomerFindings(ledger, customers[..n]) + last;
      assert customers == customers[..n] + [customers[n]];
    }
  }

  lemma {:induction false} DocumentFindingsExactly(ledger: Ledger, documents: seq<Document>, f: Finding)
    ensures f in DocumentFindings(ledger, documents) <==> exists x <- documents :: ReportsDocument(ledger, x, f)
  {
    if documents != [] {
      var n := |documents| - 1;
      DocumentFindingsExactly(ledger, documents[..n], f);
      DocumentFindingExactly(ledger, documents[n], f);
      assert documents == documents[..n] + [documents[n]];
    }
  }

  lemma {:induction false} ApprovalFindingsExactly(ledger: Ledger, approvals: seq<Approval>, f: Finding)
    ensures f in ApprovalFindings(ledger, approvals) <==> exists a <- approvals :: ReportsApproval(ledger, a, f)
  {
    if approvals != [] {
      var n := |approvals| - 1;
      ApprovalFindingsExactly(ledger, approvals[..n], f);
      var resource := DocumentResource(approvals[n].documentId);
      var last := if ClaimsOutbox(approvals[n]) && !Has(ledger, FileWritten, resource)
                  then [Finding(Critical, Some(resource), OutboxWithoutWrite)] else [];
      assert f in last <==> ReportsApproval(ledger, approvals[n], f);
      assert ApprovalFindings(ledger, approvals) == ApprovalFindings(ledger, approvals[..n]) + last;
      assert approvals == approvals[..n] + [approvals[n]];
    }
  }

  /** The critical findings are exactly the subjects whose state lacks its event, each under its own name. */
  lemma CriticalFindingsExactly(ledger: Ledger, vault: Workspace, f: Finding)
    ensures f in CriticalFindings(ledger, vault)
      <==> (|| (exists c <- vault.customers :: ReportsCustomer(ledger, c, f))
            || (exists x <- vault.documents :: ReportsDocument(ledger, x, f))
            || (exists a <- vault.approvals :: ReportsApproval(ledger, a, f)))
  {
    CustomerFindingsExactly(ledger, vault.customers, f);
    DocumentFindingsExactly(ledger, vault.documents, f);
    ApprovalFindingsExactly(ledger, vault.approvals, f);
  }

  /** No critical finding is exactly a verified chain that backs the state; a clean report also has no torn tail. */
  lemma FindingsMeaning(key: Key, d: Disk)
    ensures (forall f <- Findings(key, d) :: f.severity != Critical)
      <==> Verified(d.ledger, key) && Backed(d.ledger, d.vault)
    ensures Findings(key, d) == []
      <==> Verified(d.ledger, key) && Backed(d.ledger, d.vault) && !TailTorn(d.ledger, d.vault)
  {
    FaultFreeIffVerified(d.ledger, Some(key));
    CriticalFindingsMeaning(d.ledger, d.vault);
    var critical := CriticalFindings(d.ledger, d.vault);
    if critical != [] && ChainFault(d.ledger, Some(key)).Pass? {
      assert critical[0].severity == Critical && critical[0] in Findings(key, d);
    }
    if ChainFault(d.ledger, Some(key)).Fail? {
      assert Findings(key, d)[0].severity == Critical && Findings(key, d)[0] in Findings(key, d);
    }
  }

  // ---------------------------------------------------------------- the audit

  method TailIsTorn(ledger: Ledger, vault: Workspace) returns (torn: bool)
    requires ledger != []
    ensures torn <==> TailTorn(ledger, vault)
  {
    var last := ledger[|ledger| - 1].body.content.resource;
    var n := |ledger|;
    while n > 0 && ledger[n - 1].body.content.resource == last
      invariant 0 <= n <= |ledger|
      invariant TrailStart(ledger, |ledger|) == TrailStart(ledger, n)
      invariant forall i | n <= i < |ledger| :: !Torn(ledger[i].body.content, vault)
    {
      n := n - 1;
      if Torn(ledger[n].body.content, vault) {
        return true;
      }
    }
    return false;
  }

  method AuditCustomers(ledger: Ledger, customers: seq<Customer>) returns (findings: seq<Finding>)
    ensures findings == CustomerFindings(ledger, customers)
  {
    findings := [];
    for i := 0 to |customers|
      invariant findings == CustomerFindings(ledger, customers[..i])
    {
      var c := customers[i];
      assert customers[..i + 1][..i] == customers[..i];
      if !Has(ledger, CustomerCreate, CustomerResource(c.id)) {
        findings := findings + [Finding(Critical, Some(CustomerResource(c.id)), CustomerWithoutEvent)];
      }
    }
    assert customers[..|customers|] == customers;
  }

  method AuditDocuments(ledger: Ledger, documents: seq<Document>) returns (findings: seq<Finding>)
    ensures findings == DocumentFindings(ledger, documents)
  {
    findings := [];
    for i := 0 to |documents|
      invariant findings == DocumentFindings(ledger, documents[..i])
    {
      assert documents[..i + 1][..i] == documents[..i];
      findings := findings + DocumentFinding(ledger, documents[i]);
    }
    assert documents[..|documents|] == documents;
  }

  method AuditApprovals(ledger: Ledger, approvals: seq<Approval>) returns (findings: seq<Finding>)
    ensures findings == ApprovalFindings(ledger, approvals)
  {
    findings := [];
    for i := 0 to |approvals|
      invariant findings == ApprovalFindings(ledger, approvals[..i])
    {
      var a := approvals[i];
      assert approvals[..i + 1][..i] == approvals[..i];
      if ClaimsOutbox(a) && !Has(ledger, FileWritten, DocumentResource(a.documentId)) {
        findings := findings + [Finding(Critical, Some(DocumentResource(a.documentId)), OutboxWithoutWrite)];
      }
    }
    assert approvals[..|approvals|] == approvals;
  }

  method IntegrityCheck(key: Key, d: Disk) returns (report: IntegrityReport)
    ensures report.findings == Findings(key, d)
    ensures report.chainVerified <==> Verified(d.ledger, key)
    ensures report.ok <==> Verified(d.ledger, key) && Backed(d.ledger, d.vault)
    ensures report.findings == [] <==> report.ok && !TailTorn(d.ledger, d.vault)
    ensures report.chainVerified ==> report.events == |d.ledger|
  {
    FindingsMeaning(key, d);
    FaultFreeIffVerified(d.ledger, Some(key));
    CriticalFindingsMeaning(d.ledger, d.vault);
    var ledger := new AuditLedger<AuditEntry>.Trusting(d.ledger, key);
    var verdict := ledger.VerifyChain();
    if verdict.Fail? {
      return IntegrityReport(false, 0, false, [Finding(Critical, None, ChainUnverified)]);
    }
    var customers := AuditCustomers(d.ledger, d.vault.customers);
    var documents := AuditDocuments(d.ledger, d.vault.documents);
    var approvals := AuditApprovals(d.ledger, d.vault.approvals);
    var findings := customers + documents + approvals;
    var ok := findings == [];
    if d.ledger != [] {
      var torn := TailIsTorn(d.ledger, d.vault);
      if torn {
        findings := findings + [Finding(Warning, Some(d.ledger[|d.ledger| - 1].body.content.resource), TornTail)];
      }
    }
    return IntegrityReport(true, |d.ledger|, ok, findings);
  }
}
