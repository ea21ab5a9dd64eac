/** The data types of `apps/cli/src/workspace/types.rs` that state is made of. */
module WorkspaceTypes {
  import opened Wrappers

  datatype Venture = Venture(name: string, service: string, updatedAt: int)

  datatype Customer = Customer(id: Id, name: string, email: string, notes: string, createdAt: int)

  datatype DocumentKind = Offer | Invoice

  datatype DocumentStatus = Draft | PendingApproval | ApprovedPendingDelivery | RejectedDocument | Revoked | Delivered

  datatype Document = Document(
    id: Id,
    kind: DocumentKind,
    customerId: Id,
    title: string,
    body: string,
    amountCents: Option<nat>,
    status: DocumentStatus,
    createdAt: int)

  datatype ApprovalStatus = Pending | Approved | Rejected

  datatype Approval = Approval(
    id: Id,
    documentId: Id,
    status: ApprovalStatus,
    requestedAt: int,
    decidedAt: Option<int>,
    evidence: Option<SignedApprovalRecord>)

  /** The outbox file a send wrote; its relative path is `<document id>.eml`. */
  datatype OutboxWrite = OutboxWrite(emlOf: Id, contentSha256: Digest<string>, bytes: nat)

  /** What the signed kernel chain returns besides the outbox receipt. */
  datatype KernelRun = KernelRun(
    approvalId: Id,
    approverKeyId: Id,
    evidenceDigest: Id,
    componentDigest: Id,
    canonicalInputDigest: Id,
    idempotency: Id,
    exitCode: int,
    fuel: nat)

  datatype SignedApprovalRecord = SignedApprovalRecord(run: KernelRun, outbox: Option<OutboxWrite>)

  datatype ModelDisclosure = ModelDisclosure(id: Id, at: int, customerId: Id, providerId: string, stayedLocal: bool)

  datatype Workspace = Workspace(
    version: nat,
    venture: Option<Venture>,
    customers: seq<Customer>,
    documents: seq<Document>,
    approvals: seq<Approval>,
    disclosures: seq<ModelDisclosure>)
}
