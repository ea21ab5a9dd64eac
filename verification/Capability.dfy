/**
  Capability V2 of `crates/capability`: the issuer, the signed approval and
  the pure part of the validator.

  Keys, signatures and digests are symbols: a signed object that verifies was
  made by the holder of its key, and equal digests have equal preimages.  The
  size limits of encoded objects and their canonical form are not modelled.
*/
module Capability {
  import opened Wrappers
  import opened Strings
  import opened Identity

  datatype Tool = Tool(id: string, version: string, operation: string)

  datatype Digests = Digests(component: Id, manifest: Id, input: Id, bindings: Id)

  datatype RiskClass = PureCompute | LowRiskEffectful | HighRiskNative | UnsupportedRisk

  datatype Backend = CoreWasm | ComponentWasm | Native | UnsupportedBackend

  /** A prepared invocation, as the artifact boundary made it. */
  datatype Prepared = Prepared(tool: Tool, digests: Digests, resource: Option<string>, risk: RiskClass, backend: Backend)

  datatype Party = Party(venture: string, subject: string, session: Id)

  datatype Decision = Decision(
    id: Id,
    audience: string,
    party: Party,
    key: Id,
    tool: Tool,
    digests: Digests,
    resource: string,
    profile: string,
    risk: RiskClass,
    backend: Backend,
    evaluatedAt: int,
    allowed: bool,
    requiresApproval: bool)

  datatype Evidence = Evidence(approval: Id, approver: string, approvedAt: int)

  datatype Claims = Claims(
    typ: string,
    version: nat,
    issuer: string,
    issuerKey: KeyId,
    audience: string,
    token: Id,
    party: Party,
    tool: Tool,
    digests: Digests,
    profile: string,
    resource: string,
    decisionId: Id,
    decision: Digest<Decision>,
    evidence: Option<Evidence>,
    key: Id,
    issuedAt: int,
    expiresAt: int,
    maxUses: nat,
    risk: RiskClass,
    backend: Backend)

  datatype ApprovalClaims = ApprovalClaims(
    typ: string,
    version: nat,
    approval: Id,
    issuer: string,
    issuerKey: KeyId,
    approver: string,
    audience: string,
    party: Party,
    tool: Tool,
    digests: Digests,
    resource: string,
    decisionId: Id,
    decision: Digest<Decision>,
    profile: string,
    approvedAt: int,
    expiresAt: int)

  datatype ApprovalTrust = ApprovalTrust(keys: TrustStore, issuer: string)

  datatype CapabilityError =
    | Identity(error: IdentityError)
    | ApprovalIdentity(error: IdentityError)
    | InvalidVenture | InvalidSubject
    | UnsupportedRiskClass | BackendDowngradeDenied | MissingPrimaryResource
    | PolicyMismatch(field: string)
    | PolicyFromFuture | PolicyStale | PolicyDenied
    | ApprovalEvidenceUnavailable | UnexpectedApprovalEvidence | ApprovalTrustUnavailable
    | ApprovalEvidenceMismatch | ApprovalMismatch(field: string) | InvalidApprovalClaims
    | ApprovalLifetimeInvalid | ApprovalFromFuture | ApprovalExpired | ApprovalReused
    | InvalidLifetime | NotYetValid | Expired | InvalidUseLimit
    | TypeMismatch | UnsupportedVersion | IssuerMismatch | IssuerKeyMismatch | AudienceMismatch
    | VentureMismatch | SubjectMismatch | SessionMismatch
    | InvocationMismatch(field: string)
    | Replay | IdempotencyReplay | IdempotencyConflict | StoreUnavailable

  const CAPABILITY_TYPE := "sovereign.capability"
  const CAPABILITY_VERSION := 2
  const APPROVAL_TYPE := "sovereign.approval"
  const APPROVAL_VERSION := 1
  const PROFILE := "rfc8785-jcs+sovereign-digest-v1"
  const MAX_TTL := 300
  const MAX_POLICY_AGE := 30
  const APPROVAL_MAX_TTL := 600

  // ------------------------------------------------------------ check lists

  /** A condition, and the error when it does not hold. */
  datatype Rule = Rule(holds: bool, error: CapabilityError)

  /** The error of the first rule that does not hold. */
  function FirstFailure(rules: seq<Rule>): (r: Check<CapabilityError>)
    ensures r.Pass? <==> forall i | 0 <= i < |rules| :: rules[i].holds
  {
    if rules == [] then Pass
    else if !rules[0].holds then Fail(rules[0].error)
    else
      assert forall i | 1 <= i < |rules| :: rules[i] == rules[1..][i - 1];
      FirstFailure(rules[1..])
  }

  /** 64-bit signed addition and subtraction that report overflow. */
  function Checked(value: int): Option<int> {
    if -0x8000_0000_0000_0000 <= value < 0x8000_0000_0000_0000 then Some(value) else None
  }

  predicate Identifier(s: string) {
    s != "" && Trim(s) == s && Utf8Length(s) <= 512 && forall c <- s :: !IsControl(c)
  }

  // ------------------------------------------------------------ shared rules

  function SupportedRules(p: Prepared): seq<Rule> {
    [Rule(p.risk == PureCompute, UnsupportedRiskClass),
     Rule(p.backend == CoreWasm, BackendDowngradeDenied),
     Rule(p.resource.Some? && Identifier(p.resource.value), MissingPrimaryResource)]
  }

  function PolicyRules(d: Decision, audience: string, party: Party, key: Id, p: Prepared): seq<Rule> {
    [Rule(d.audience == audience, PolicyMismatch("audience")),
     Rule(d.party.venture == party.venture, PolicyMismatch("venture_id")),
     Rule(d.party.subject == party.subject, PolicyMismatch("subject_id")),
     Rule(d.party.session == party.session, PolicyMismatch("session_id")),
     Rule(d.key == key, PolicyMismatch("idempotency_key")),
     Rule(d.tool.id == p.tool.id, PolicyMismatch("tool_id")),
     Rule(d.tool.operation == p.tool.operation, PolicyMismatch("operation")),
     Rule(d.tool.version == p.tool.version, PolicyMismatch("tool_version")),
     Rule(p.resource.Some?, MissingPrimaryResource),
     Rule(Some(d.resource) == p.resource, PolicyMismatch("primary_resource")),
     Rule(d.digests.component == p.digests.component, PolicyMismatch("component_digest")),
     Rule(d.digests.manifest == p.digests.manifest, PolicyMismatch("manifest_digest")),
     Rule(d.digests.input == p.digests.input, PolicyMismatch("canonical_input_digest")),
     Rule(d.digests.bindings == p.digests.bindings, PolicyMismatch("resource_bindings_digest")),
     Rule(d.profile == PROFILE, PolicyMismatch("canonicalization_profile")),
     Rule(d.risk == p.risk, PolicyMismatch("risk_class")),
     Rule(d.backend == p.backend, PolicyMismatch("backend"))]
  }

  function FreshnessRules(d: Decision, now: int, maxAge: int): seq<Rule> {
    var age := Checked(now - d.evaluatedAt);
    [Rule(age.Some? && age.value >= 0, PolicyFromFuture), Rule(age.Some? && age.value <= maxAge, PolicyStale)]
  }

  // ---------------------------------------------------------------- approval

  datatype GrantRequest = GrantRequest(approver: string, audience: string, party: Party, decision: Decision, prepared: Prepared, ttl: int)

  datatype Signer = Signer(key: KeyId, issuer: string)

  /** `approve_invocation`: the owner signs one decision about one invocation. */
  function ApproveInvocation(signer: Signer, g: GrantRequest, approval: Id, now: int)
    : Result<Signed<ApprovalClaims>, CapabilityError>
  {
    if g.ttl <= 0 || g.ttl > APPROVAL_MAX_TTL then Err(ApprovalLifetimeInvalid)
    else if g.approver == "" || Trim(g.approver) != g.approver || Utf8Length(g.approver) > 512 then Err(InvalidApprovalClaims)
    else if g.prepared.resource.None? then Err(MissingPrimaryResource)
    else if Checked(now + g.ttl).None? then Err(ApprovalLifetimeInvalid)
    else
      Ok(Cose(signer.key, ApprovalClaims(
        APPROVAL_TYPE, APPROVAL_VERSION, approval, signer.issuer, signer.key, g.approver, g.audience, g.party,
        g.prepared.tool, g.prepared.digests, g.prepared.resource.value, g.decision.id, Sha256(g.decision), PROFILE,
        now, now + g.ttl)))
  }

  function ApprovalRules(a: ApprovalClaims, signer: KeyId, issuer: string, audience: string, party: Party,
                         d: Decision, p: Prepared, now: int): seq<Rule>
  {
    var lifetime := Checked(a.expiresAt - a.approvedAt);
    [Rule(a.typ == APPROVAL_TYPE, ApprovalMismatch("typ")),
     Rule(a.version == APPROVAL_VERSION, ApprovalMismatch("version")),
     Rule(a.issuer == issuer, ApprovalMismatch("approver_issuer")),
     Rule(a.issuerKey == signer, ApprovalMismatch("approver_key_id")),
     Rule(a.approver != "", InvalidApprovalClaims),
     Rule(a.audience == audience, ApprovalMismatch("audience")),
     Rule(a.party.venture == party.venture, ApprovalMismatch("venture_id")),
     Rule(a.party.subject == party.subject, ApprovalMismatch("subject_id")),
     Rule(a.party.session == party.session, ApprovalMismatch("session_id")),
     Rule(a.profile == PROFILE, ApprovalMismatch("canonicalization_profile")),
     Rule(a.tool == p.tool, ApprovalMismatch("tool")),
     Rule(p.resource.Some?, MissingPrimaryResource),
     Rule(Some(a.resource) == p.resource, ApprovalMismatch("primary_resource")),
     Rule(a.digests.component == p.digests.component, ApprovalMismatch("component_digest")),
     Rule(a.digests.manifest == p.digests.manifest, ApprovalMismatch("manifest_digest")),
     Rule(a.digests.input == p.digests.input, ApprovalMismatch("canonical_input_digest")),
     Rule(a.digests.bindings == p.digests.bindings, ApprovalMismatch("resource_bindings_digest")),
     Rule(a.decisionId == d.id && a.decision == Sha256(d), ApprovalMismatch("policy_decision")),
     Rule(lifetime.Some? && 0 < lifetime.value <= APPROVAL_MAX_TTL, ApprovalLifetimeInvalid),
     Rule(a.approvedAt <= now, ApprovalFromFuture),
     Rule(now < a.expiresAt, ApprovalExpired),
     Rule(a.approvedAt >= d.evaluatedAt, ApprovalMismatch("approved_at_unix"))]
  }

  function VerifyApproval(trust: ApprovalTrust, approval: Signed<ApprovalClaims>, audience: string, party: Party,
                          d: Decision, p: Prepared, now: int): Result<ApprovalClaims, CapabilityError>
  {
    var verified := VerifySignature(trust.keys, approval, trust.issuer, now);
    if verified.Err? then Err(ApprovalIdentity(verified.error))
    else
      var a := verified.value;
      var failure := FirstFailure(ApprovalRules(a, approval.signer, trust.issuer, audience, party, d, p, now));
      if failure.Fail? then Err(failure.error) else Ok(a)
  }

  // ------------------------------------------------------------------ issuer

  datatype Issuer = Issuer(signer: Signer, audience: string, approvals: Option<ApprovalTrust>)

  datatype Request = Request(party: Party, decision: Decision, prepared: Prepared, key: Id, ttl: int)

  function MaxAge(withApproval: bool): int { if withApproval then APPROVAL_MAX_TTL else MAX_POLICY_AGE }

  function IssueRules(i: Issuer, r: Request, withApproval: bool, now: int): seq<Rule> {
    [Rule(Identifier(r.party.venture), InvalidVenture), Rule(Identifier(r.party.subject), InvalidSubject)]
    + SupportedRules(r.prepared)
    + PolicyRules(r.decision, i.audience, r.party, r.key, r.prepared)
    + FreshnessRules(r.decision, now, MaxAge(withApproval))
    + [Rule(r.decision.allowed, PolicyDenied)]
  }

  /** The approval evidence of a new token. */
  function IssueEvidence(i: Issuer, r: Request, approval: Option<Signed<ApprovalClaims>>, now: int)
    : Result<Option<Evidence>, CapabilityError>
  {
    if r.decision.requiresApproval && approval.None? then Err(ApprovalEvidenceUnavailable)
    else if !r.decision.requiresApproval && approval.Some? then Err(UnexpectedApprovalEvidence)
    else if approval.None? then Ok(None)
    else if i.approvals.None? then Err(ApprovalTrustUnavailable)
    else
      var a := VerifyApproval(i.approvals.value, approval.value, i.audience, r.party, r.decision, r.prepared, now);
      if a.Err? then Err(a.error) else Ok(Some(Evidence(a.value.approval, a.value.approver, a.value.approvedAt)))
  }

  function Issue(i: Issuer, r: Request, approval: Option<Signed<ApprovalClaims>>, token: Id, now: int)
    : Result<Signed<Claims>, CapabilityError>
  {
    var failure := FirstFailure(IssueRules(i, r, approval.Some?, now));
    if failure.Fail? then Err(failure.error)
    else
      var evidence := IssueEvidence(i, r, approval, now);
      if evidence.Err? then Err(evidence.error)
      else if r.ttl <= 0 || r.ttl > MAX_TTL then Err(InvalidLifetime)
      else if Checked(now + r.ttl).None? then Err(InvalidLifetime)
      else if r.prepared.resource.None? then Err(MissingPrimaryResource)
      else
        Ok(Cose(i.signer.key, Claims(
          CAPABILITY_TYPE, CAPABILITY_VERSION, i.signer.issuer, i.signer.key, i.audience, token, r.party,
          r.prepared.tool, r.prepared.digests, PROFILE, r.prepared.resource.value, r.decision.id, Sha256(r.decision),
          evidence.value, r.key, now, now + r.ttl, 1, r.prepared.risk, r.prepared.backend)))
  }

  // --------------------------------------------------------------- validator

  datatype Validator = Validator(trust: TrustStore, issuer: string, audience: string, approvals: Option<ApprovalTrust>)

  datatype Context = Context(party: Party, decision: Decision, prepared: Prepared)

  /** Everything an idempotency key is bound to. */
  datatype Invocation = Invocation(
    audience: string, party: Party, tool: Tool, digests: Digests, profile: string, resource: string,
    decision: Digest<Decision>, risk: RiskClass, backend: Backend)

  type InvocationFingerprint = Digest<Invocation>

  datatype Memory = Memory(consumed: set<Id>, keys: map<Id, InvocationFingerprint>, approvals: set<Id>)

  function FingerprintOf(c: Claims): InvocationFingerprint {
    Sha256(Invocation(c.audience, c.party, c.tool, c.digests, c.profile, c.resource, c.decision, c.risk, c.backend))
  }

  function ClaimRules(v: Validator, c: Claims, signer: KeyId, x: Context, now: int): seq<Rule> {
    var lifetime := Checked(c.expiresAt - c.issuedAt);
    [Rule(c.typ == CAPABILITY_TYPE, TypeMismatch),
     Rule(c.version == CAPABILITY_VERSION, UnsupportedVersion),
     Rule(c.issuer == v.issuer, IssuerMismatch),
     Rule(c.issuerKey == signer, IssuerKeyMismatch),
     Rule(c.audience == v.audience, AudienceMismatch),
     Rule(lifetime.Some? && 0 < lifetime.value <= MAX_TTL, InvalidLifetime),
     Rule(c.issuedAt <= now, NotYetValid),
     Rule(now < c.expiresAt, Expired),
     Rule(c.maxUses == 1, InvalidUseLimit),
     Rule(c.risk == PureCompute, UnsupportedRiskClass),
     Rule(c.backend == CoreWasm, BackendDowngradeDenied),
     Rule(c.party.venture == x.party.venture, VentureMismatch),
     Rule(c.party.subject == x.party.subject, SubjectMismatch),
     Rule(c.party.session == x.party.session, SessionMismatch)]
  }

  function InvocationRules(c: Claims, p: Prepared): seq<Rule> {
    [Rule(c.tool.id == p.tool.id, InvocationMismatch("tool_id")),
     Rule(c.tool.version == p.tool.version, InvocationMismatch("tool_version")),
     Rule(c.tool.operation == p.tool.operation, InvocationMismatch("operation")),
     Rule(c.profile == PROFILE, InvocationMismatch("canonicalization_profile")),
     Rule(Some(c.resource) == p.resource, InvocationMismatch("primary_resource")),
     Rule(c.digests.component == p.digests.component, InvocationMismatch("component_digest")),
     Rule(c.digests.manifest == p.digests.manifest, InvocationMismatch("manifest_digest")),
     Rule(c.digests.input == p.digests.input, InvocationMismatch("canonical_input_digest")),
     Rule(c.digests.bindings == p.digests.bindings, InvocationMismatch("resource_bindings_digest")),
     Rule(c.risk == p.risk, InvocationMismatch("risk_class")),
     Rule(c.backend == p.backend, InvocationMismatch("backend"))]
  }

  function DecisionRules(v: Validator, c: Claims, x: Context, now: int): seq<Rule> {
    PolicyRules(x.decision, v.audience, x.party, c.key, x.prepared)
    + FreshnessRules(x.decision, now, MaxAge(c.evidence.Some?))
    + [Rule(x.decision.allowed, PolicyDenied),
       Rule(c.decisionId == x.decision.id && c.decision == Sha256(x.decision), PolicyMismatch("decision_digest"))]
  }

  /** The token's evidence, the presented approval and the decision must all agree. */
  function CheckEvidence(v: Validator, m: Memory, c: Claims, x: Context, approval: Option<Signed<ApprovalClaims>>, now: int)
    : Result<Option<Id>, CapabilityError>
  {
    if !x.decision.requiresApproval then
      if c.evidence.None? && approval.None? then Ok(None) else Err(UnexpectedApprovalEvidence)
    else if c.evidence.None? then Err(ApprovalEvidenceUnavailable)
    else if approval.None? then Err(ApprovalEvidenceMismatch)
    else if v.approvals.None? then Err(ApprovalTrustUnavailable)
    else
      var a := VerifyApproval(v.approvals.value, approval.value, v.audience, x.party, x.decision, x.prepared, now);
      if a.Err? then Err(a.error)
      else if Evidence(a.value.approval, a.value.approver, a.value.approvedAt) != c.evidence.value then
        Err(ApprovalEvidenceMismatch)
      else if a.value.approval in m.approvals then Err(ApprovalReused)
      else Ok(Some(a.value.approval))
  }

  /** `authorize_and_consume_approved` up to the durable claims. */
  function Authorize(v: Validator, m: Memory, token: Signed<Claims>, x: Context,
                     approval: Option<Signed<ApprovalClaims>>, now: int): Result<Claims, CapabilityError>
  {
    var verified := VerifySignature(v.trust, token, v.issuer, now);
    if verified.Err? then Err(Identity(verified.error))
    else
      var c := verified.value;
      var failure := FirstFailure(ClaimRules(v, c, token.signer, x, now) + SupportedRules(x.prepared)
                                  + InvocationRules(c, x.prepared) + DecisionRules(v, c, x, now));
      if failure.Fail? then Err(failure.error)
      else if c.token in m.consumed then Err(Replay)
      else
        var evidence := CheckEvidence(v, m, c, x, approval, now);
        if evidence.Err? then Err(evidence.error)
        else if c.key in m.keys then
          Err(if m.keys[c.key] == FingerprintOf(c) then IdempotencyReplay else IdempotencyConflict)
        else Ok(c)
  }

  // ----------------------------------------------------- what acceptance says

  lemma RulesConcat(a: seq<Rule>, b: seq<Rule>)
    ensures FirstFailure(a + b).Pass? <==> FirstFailure(a).Pass? && FirstFailure(b).Pass?
  {
    forall i | 0 <= i < |b| ensures (a + b)[|a| + i] == b[i] {}
    forall i | 0 <= i < |a| ensures (a + b)[i] == a[i] {}
  }

  /** The invocation that the claims name is the one presented. */
  predicate SameInvocation(tool: Tool, digests: Digests, resource: string, p: Prepared) {
    tool == p.tool && digests == p.digests && p.resource == Some(resource)
  }

  predicate Supported(p: Prepared) {
    p.risk == PureCompute && p.backend == CoreWasm && p.resource.Some? && Identifier(p.resource.value)
  }

  /** The decision is about exactly this audience, party, key and invocation. */
  predicate Decides(d: Decision, audience: string, party: Party, key: Id, p: Prepared) {
    && d.audience == audience && d.party == party && d.key == key
    && SameInvocation(d.tool, d.digests, d.resource, p)
    && d.profile == PROFILE && d.risk == p.risk && d.backend == p.backend
  }

  predicate InWindow(at: int, now: int, limit: int) { at <= now <= at + limit }

  /** A decision is recent for ten minutes with an approval, for half a minute without. */
  predicate Recent(d: Decision, now: int, withApproval: bool) {
    d.evaluatedAt <= now && now <= d.evaluatedAt + (if withApproval then 600 else 30)
  }

  predicate ApprovalBinds(a: ApprovalClaims, signer: KeyId, issuer: string, audience: string, party: Party,
                          d: Decision, p: Prepared, now: int)
  {
    && a.typ == APPROVAL_TYPE && a.version == APPROVAL_VERSION && a.issuer == issuer && a.issuerKey == signer
    && a.approver != "" && a.audience == audience && a.party == party && a.profile == PROFILE
    && SameInvocation(a.tool, a.digests, a.resource, p)
    && a.decisionId == d.id && a.decision == Sha256(d)
    && d.evaluatedAt <= a.approvedAt <= now < a.expiresAt <= a.approvedAt + APPROVAL_MAX_TTL
  }

  /** A trusted approver's signature over claims that bind this invocation and this decision. */
  predicate Approves(trust: ApprovalTrust, approval: Signed<ApprovalClaims>, audience: string, party: Party,
                     d: Decision, p: Prepared, now: int)
  {
    && approval.Cose? && KeyAccepted(trust.keys, approval.signer, trust.issuer, now)
    && ApprovalBinds(approval.payload, approval.signer, trust.issuer, audience, party, d, p, now)
  }

  lemma VerifiesExactly(trust: ApprovalTrust, approval: Signed<ApprovalClaims>, audience: string, party: Party,
                        d: Decision, p: Prepared, now: int)
    ensures var verified := VerifyApproval(trust, approval, audience, party, d, p, now);
      && (verified.Ok? <==> Approves(trust, approval, audience, party, d, p, now))
      && (verified.Ok? ==> verified.value == approval.payload)
  {
    if approval.Cose? {
      ApprovalRulesMeaning(approval.payload, approval.signer, trust.issuer, audience, party, d, p, now);
    }
  }

  lemma PolicyRulesMeaning(d: Decision, audience: string, party: Party, key: Id, p: Prepared)
    ensures FirstFailure(PolicyRules(d, audience, party, key, p)).Pass? <==> Decides(d, audience, party, key, p)
  {
    var rules := PolicyRules(d, audience, party, key, p);
    if FirstFailure(rules).Pass? {
      assert rules[0].holds && rules[1].holds && rules[2].holds && rules[3].holds && rules[4].holds && rules[5].holds;
      assert rules[6].holds && rules[7].holds && rules[8].holds && rules[9].holds && rules[10].holds && rules[11].holds;
      assert rules[12].holds && rules[13].holds && rules[14].holds && rules[15].holds && rules[16].holds;
    }
  }

  lemma SupportedRulesMeaning(p: Prepared)
    ensures FirstFailure(SupportedRules(p)).Pass? <==> Supported(p)
  {
    var rules := SupportedRules(p);
    if FirstFailure(rules).Pass? {
      assert rules[0].holds && rules[1].holds && rules[2].holds;
    }
  }

  lemma FreshnessRulesMeaning(d: Decision, now: int, maxAge: int)
    requires maxAge <= APPROVAL_MAX_TTL
    ensures FirstFailure(FreshnessRules(d, now, maxAge)).Pass? <==> InWindow(d.evaluatedAt, now, maxAge)
  {
    var rules := FreshnessRules(d, now, maxAge);
    if FirstFailure(rules).Pass? {
      assert rules[0].holds && rules[1].holds;
    }
  }

  lemma ApprovalRulesMeaning(a: ApprovalClaims, signer: KeyId, issuer: string, audience: string, party: Party,
                             d: Decision, p: Prepared, now: int)
    ensures FirstFailure(ApprovalRules(a, signer, issuer, audience, party, d, p, now)).Pass? <==> ApprovalBinds(a, signer, issuer, audience, party, d, p, now)
  {
    var rules := ApprovalRules(a, signer, issuer, audience, party, d, p, now);
    if FirstFailure(rules).Pass? {
      assert rules[0].holds && rules[1].holds && rules[2].holds && rules[3].holds && rules[4].holds && rules[5].holds;
      assert rules[6].holds && rules[7].holds && rules[8].holds && rules[9].holds && rules[10].holds && rules[11].holds;
      assert rules[12].holds && rules[13].holds && rules[14].holds && rules[15].holds && rules[16].holds && rules[17].holds;
      assert rules[18].holds && rules[19].holds && rules[20].holds && rules[21].holds;
    }
  }

  /** The token says what the validator and the caller expect, and is inside its own window. */
  predicate ClaimsBind(v: Validator, c: Claims, signer: KeyId, x: Context, now: int) {
    && c.typ == CAPABILITY_TYPE && c.version == CAPABILITY_VERSION
    && c.issuer == v.issuer && c.issuerKey == signer && c.audience == v.audience
    && c.issuedAt <= now < c.expiresAt <= c.issuedAt + MAX_TTL
    && c.maxUses == 1 && c.risk == PureCompute && c.backend == CoreWasm && c.party == x.party
  }

  lemma ClaimRulesMeaning(v: Validator, c: Claims, signer: KeyId, x: Context, now: int)
    ensures FirstFailure(ClaimRules(v, c, signer, x, now)).Pass? <==> ClaimsBind(v, c, signer, x, now)
  {
    var rules := ClaimRules(v, c, signer, x, now);
    if FirstFailure(rules).Pass? {
      assert rules[0].holds && rules[1].holds && rules[2].holds && rules[3].holds && rules[4].holds && rules[5].holds;
      assert rules[6].holds && rules[7].holds && rules[8].holds && rules[9].holds && rules[10].holds && rules[11].holds;
      assert rules[12].holds && rules[13].holds;
    }
  }

  lemma InvocationRulesMeaning(c: Claims, p: Prepared)
    ensures FirstFailure(InvocationRules(c, p)).Pass? 
      <==> (SameInvocation(c.tool, c.digests, c.resource, p) && c.profile == PROFILE && c.risk == p.risk && c.backend == p.backend)
  {
    var rules := InvocationRules(c, p);
    if FirstFailure(rules).Pass? {
      assert rules[0].holds && rules[1].holds && rules[2].holds && rules[3].holds && rules[4].holds && rules[5].holds;
      assert rules[6].holds && rules[7].holds && rules[8].holds && rules[9].holds && rules[10].holds;
    }
  }

  /** The bound fields, the decision and the windows of an acceptable token. */
  predicate Binds(v: Validator, c: Claims, signer: KeyId, x: Context, now: int) {
    && ClaimsBind(v, c, signer, x, now)
    && Supported(x.prepared)
    && SameInvocation(c.tool, c.digests, c.resource, x.prepared) && c.profile == PROFILE
    && Decides(x.decision, v.audience, x.party, c.key, x.prepared)
    && Recent(x.decision, now, c.evidence.Some?)
    && x.decision.allowed
    && c.decisionId == x.decision.id && c.decision == Sha256(x.decision)
  }

  /** The presented approval is the one the token names, by a trusted approver, about this decision. */
  predicate EvidenceBinds(v: Validator, c: Claims, x: Context, approval: Option<Signed<ApprovalClaims>>, now: int) {
    if !x.decision.requiresApproval then c.evidence.None? && approval.None?
    else
      && c.evidence.Some? && approval.Some? && v.approvals.Some?
      && Approves(v.approvals.value, approval.value, v.audience, x.party, x.decision, x.prepared, now)
      && var a := approval.value.payload;
         c.evidence.value == Evidence(a.approval, a.approver, a.approvedAt)
  }

  predicate Unused(m: Memory, c: Claims) {
    && c.token !in m.consumed && c.key !in m.keys
    && (c.evidence.Some? ==> c.evidence.value.approval !in m.approvals)
  }

  lemma TokenRulesMeaning(v: Validator, c: Claims, signer: KeyId, x: Context, now: int)
    ensures FirstFailure(ClaimRules(v, c, signer, x, now) + SupportedRules(x.prepared)
                         + InvocationRules(c, x.prepared) + DecisionRules(v, c, x, now)).Pass?
      <==> Binds(v, c, signer, x, now)
  {
    var claim, supported := ClaimRules(v, c, signer, x, now), SupportedRules(x.prepared);
    var invocation, decision := InvocationRules(c, x.prepared), DecisionRules(v, c, x, now);
    RulesConcat(claim + supported + invocation, decision);
    RulesConcat(claim + supported, invocation);
    RulesConcat(claim, supported);
    ClaimRulesMeaning(v, c, signer, x, now);
    SupportedRulesMeaning(x.prepared);
    InvocationRulesMeaning(c, x.prepared);
    DecisionRulesMeaning(v, c, x, now);
  }

  lemma DecisionRulesMeaning(v: Validator, c: Claims, x: Context, now: int)
    ensures FirstFailure(DecisionRules(v, c, x, now)).Pass?
      <==> (&& Decides(x.decision, v.audience, x.party, c.key, x.prepared)
            && Recent(x.decision, now, c.evidence.Some?)
            && x.decision.allowed && c.decisionId == x.decision.id && c.decision == Sha256(x.decision))
  {
    var policy := PolicyRules(x.decision, v.audience, x.party, c.key, x.prepared);
    var recent := FreshnessRules(x.decision, now, MaxAge(c.evidence.Some?));
    var last := [Rule(x.decision.allowed, PolicyDenied),
                 Rule(c.decisionId == x.decision.id && c.decision == Sha256(x.decision), PolicyMismatch("decision_digest"))];
    RulesConcat(policy + recent, last);
    RulesConcat(policy, recent);
    PolicyRulesMeaning(x.decision, v.audience, x.party, c.key, x.prepared);
    FreshnessRulesMeaning(x.decision, now, MaxAge(c.evidence.Some?));
    if FirstFailure(last).Pass? {
      assert last[0].holds && last[1].holds;
    }
  }

  /**
    Acceptance, for every token, context, approval and time: exactly a trusted
    signature over claims that bind this invocation, this decision and this
    approval, inside all their windows, none of them used in this process.
  */
  lemma AcceptedExactly(v: Validator, m: Memory, token: Signed<Claims>, x: Context,
                        approval: Option<Signed<ApprovalClaims>>, now: int)
    ensures Authorize(v, m, token, x, approval, now).Ok?
      <==> (&& token.Cose? && KeyAccepted(v.trust, token.signer, v.issuer, now)
            && Binds(v, token.payload, token.signer, x, now)
            && EvidenceBinds(v, token.payload, x, approval, now)
            && Unused(m, token.payload))
  {
    if token.Cose? {
      TokenRulesMeaning(v, token.payload, token.signer, x, now);
      EvidenceMeaning(v, m, token.payload, x, approval, now);
    }
  }

  lemma EvidenceMeaning(v: Validator, m: Memory, c: Claims, x: Context,
                        approval: Option<Signed<ApprovalClaims>>, now: int)
    ensures CheckEvidence(v, m, c, x, approval, now).Ok?
      <==> EvidenceBinds(v, c, x, approval, now) && (c.evidence.Some? ==> c.evidence.value.approval !in m.approvals)
  {
    if v.approvals.Some? && approval.Some? {
      VerifiesExactly(v.approvals.value, approval.value, v.audience, x.party, x.decision, x.prepared, now);
    }
  }

  // ------------------------------------------------------- refusals are true

  lemma {:induction false} FirstFailureIsARule(rules: seq<Rule>)
    requires FirstFailure(rules).Fail?
    ensures exists i :: 0 <= i < |rules| && !rules[i].holds && FirstFailure(rules).error == rules[i].error
  {
    if rules[0].holds {
      FirstFailureIsARule(rules[1..]);
      var i :| 0 <= i < |rules| - 1 && !rules[1..][i].holds && FirstFailure(rules).error == rules[1..][i].error;
      assert rules[1..][i] == rules[i + 1];
    }
  }

  /** What a refusal after the checks of the claims, the invocation and the decision means. */
  predicate TokenReason(e: CapabilityError, v: Validator, c: Claims, signer: KeyId, x: Context, now: int) {
    match e
    case TypeMismatch => c.typ != CAPABILITY_TYPE
    case UnsupportedVersion => c.version != CAPABILITY_VERSION
    case IssuerMismatch => c.issuer != v.issuer
    case IssuerKeyMismatch => c.issuerKey != signer
    case AudienceMismatch => c.audience != v.audience
    case InvalidLifetime => !(0 < c.expiresAt - c.issuedAt <= MAX_TTL)
    case NotYetValid => now < c.issuedAt
    case Expired => c.expiresAt <= now
    case InvalidUseLimit => c.maxUses != 1
    case UnsupportedRiskClass => c.risk != PureCompute || x.prepared.risk != PureCompute
    case BackendDowngradeDenied => c.backend != CoreWasm || x.prepared.backend != CoreWasm
    case VentureMismatch => c.party.venture != x.party.venture
    case SubjectMismatch => c.party.subject != x.party.subject
    case SessionMismatch => c.party.session != x.party.session
    case MissingPrimaryResource => x.prepared.resource.None? || !Identifier(x.prepared.resource.value)
    case InvocationMismatch(_) =>
      !(SameInvocation(c.tool, c.digests, c.resource, x.prepared) && c.profile == PROFILE
        && c.risk == x.prepared.risk && c.backend == x.prepared.backend)
    case PolicyMismatch(_) =>
      || !Decides(x.decision, v.audience, x.party, c.key, x.prepared)
      || c.decisionId != x.decision.id || c.decision != Sha256(x.decision)
    case PolicyFromFuture => now < x.decision.evaluatedAt || now - x.decision.evaluatedAt >= 0x8000_0000_0000_0000
    case PolicyStale =>
      || now > x.decision.evaluatedAt + (if c.evidence.Some? then 600 else 30)
      || now - x.decision.evaluatedAt < -0x8000_0000_0000_0000
    case PolicyDenied => !x.decision.allowed
    case _ => false
  }

  /** What a refusal because of an earlier use or of the approval means. */
  predicate UseReason(e: CapabilityError, m: Memory, v: Validator, c: Claims, x: Context, approval: Option<Signed<ApprovalClaims>>) {
    match e
    case Replay => c.token in m.consumed
    case IdempotencyReplay => c.key in m.keys && m.keys[c.key] == FingerprintOf(c)
    case IdempotencyConflict => c.key in m.keys && m.keys[c.key] != FingerprintOf(c)
    case UnexpectedApprovalEvidence => !x.decision.requiresApproval && (c.evidence.Some? || approval.Some?)
    case ApprovalEvidenceUnavailable => x.decision.requiresApproval && c.evidence.None?
    case ApprovalTrustUnavailable => x.decision.requiresApproval && v.approvals.None?
    case ApprovalReused => c.evidence.Some? && c.evidence.value.approval in m.approvals
    case ApprovalEvidenceMismatch =>
      && c.evidence.Some?
      && (approval.None? || (approval.value.Cose? &&
            var a := approval.value.payload;
            c.evidence.value != Evidence(a.approval, a.approver, a.approvedAt)))
    case MissingPrimaryResource => x.prepared.resource.None?
    case _ => ApprovalError(e) && x.decision.requiresApproval && c.evidence.Some? && approval.Some? && v.approvals.Some?
  }

  ghost predicate TrueRules(rules: seq<Rule>, v: Validator, c: Claims, signer: KeyId, x: Context, now: int) {
    forall i | 0 <= i < |rules| && !rules[i].holds :: TokenReason(rules[i].error, v, c, signer, x, now)
  }

  lemma ClaimRulesAreTrue(v: Validator, c: Claims, signer: KeyId, x: Context, now: int)
    ensures TrueRules(ClaimRules(v, c, signer, x, now), v, c, signer, x, now)
  {
  }

  lemma SupportedRulesAreTrue(v: Validator, c: Claims, signer: KeyId, x: Context, now: int)
    ensures TrueRules(SupportedRules(x.prepared), v, c, signer, x, now)
  {
  }

  lemma InvocationRulesAreTrue(v: Validator, c: Claims, signer: KeyId, x: Context, now: int)
    ensures TrueRules(InvocationRules(c, x.prepared), v, c, signer, x, now)
  {
    var rules := InvocationRules(c, x.prepared);
    InvocationRulesMeaning(c, x.prepared);
    assert forall i | 0 <= i < |rules| :: rules[i].error.InvocationMismatch?;
  }

  lemma PolicyRulesAreTrue(v: Validator, c: Claims, signer: KeyId, x: Context, now: int)
    ensures TrueRules(PolicyRules(x.decision, v.audience, x.party, c.key, x.prepared), v, c, signer, x, now)
  {
    var rules := PolicyRules(x.decision, v.audience, x.party, c.key, x.prepared);
    PolicyRulesMeaning(x.decision, v.audience, x.party, c.key, x.prepared);
    assert forall i | 0 <= i < |rules| ::
      rules[i].error.PolicyMismatch? || (rules[i].error.MissingPrimaryResource? && rules[i].holds == x.prepared.resource.Some?);
  }

  lemma DecisionRulesAreTrue(v: Validator, c: Claims, signer: KeyId, x: Context, now: int)
    ensures TrueRules(DecisionRules(v, c, x, now), v, c, signer, x, now)
  {
    var policy := PolicyRules(x.decision, v.audience, x.party, c.key, x.prepared);
    var recent := FreshnessRules(x.decision, now, MaxAge(c.evidence.Some?));
    var last := [Rule(x.decision.allowed, PolicyDenied),
                 Rule(c.decisionId == x.decision.id && c.decision == Sha256(x.decision), PolicyMismatch("decision_digest"))];
    PolicyRulesAreTrue(v, c, signer, x, now);
    assert TrueRules(recent, v, c, signer, x, now);
    assert TrueRules(last, v, c, signer, x, now);
    TrueConcat(policy, recent, v, c, signer, x, now);
    TrueConcat(policy + recent, last, v, c, signer, x, now);
  }

  lemma TrueConcat(a: seq<Rule>, b: seq<Rule>, v: Validator, c: Claims, signer: KeyId, x: Context, now: int)
    requires TrueRules(a, v, c, signer, x, now) && TrueRules(b, v, c, signer, x, now)
    ensures TrueRules(a + b, v, c, signer, x, now)
  {
  }

  /** The rules of a token in the order they are checked. */
  ghost function TokenRules(v: Validator, c: Claims, signer: KeyId, x: Context, now: int): seq<Rule> {
    ClaimRules(v, c, signer, x, now) + SupportedRules(x.prepared) + InvocationRules(c, x.prepared) + DecisionRules(v, c, x, now)
  }

  lemma TokenRulesAreTrue(v: Validator, c: Claims, signer: KeyId, x: Context, now: int)
    requires FirstFailure(TokenRules(v, c, signer, x, now)).Fail?
    ensures TokenReason(FirstFailure(TokenRules(v, c, signer, x, now)).error, v, c, signer, x, now)
  {
    var claim, supported := ClaimRules(v, c, signer, x, now), SupportedRules(x.prepared);
    var invocation, decision := InvocationRules(c, x.prepared), DecisionRules(v, c, x, now);
    ClaimRulesAreTrue(v, c, signer, x, now);
    SupportedRulesAreTrue(v, c, signer, x, now);
    InvocationRulesAreTrue(v, c, signer, x, now);
    DecisionRulesAreTrue(v, c, signer, x, now);
    TrueConcat(claim, supported, v, c, signer, x, now);
    TrueConcat(claim + supported, invocation, v, c, signer, x, now);
    TrueConcat(claim + supported + invocation, decision, v, c, signer, x, now);
    FirstFailureIsARule(TokenRules(v, c, signer, x, now));
  }

  /** The errors of the checks of an approval. */
  predicate ApprovalError(e: CapabilityError) {
    || e.ApprovalIdentity? || e.ApprovalMismatch? || e.InvalidApprovalClaims?
    || e.ApprovalLifetimeInvalid? || e.ApprovalFromFuture? || e.ApprovalExpired?
  }

  lemma ApprovalRefusal(trust: ApprovalTrust, approval: Signed<ApprovalClaims>, audience: string, party: Party,
                        d: Decision, p: Prepared, now: int)
    requires VerifyApproval(trust, approval, audience, party, d, p, now).Err?
    ensures var e := VerifyApproval(trust, approval, audience, party, d, p, now).error;
      ApprovalError(e) || (e.MissingPrimaryResource? && p.resource.None?)
  {
    if approval.Cose? && KeyAccepted(trust.keys, approval.signer, trust.issuer, now) {
      var rules := ApprovalRules(approval.payload, approval.signer, trust.issuer, audience, party, d, p, now);
      FirstFailureIsARule(rules);
      assert forall i | 0 <= i < |rules| ::
        ApprovalError(rules[i].error) || (rules[i].error.MissingPrimaryResource? && rules[i].holds == p.resource.Some?);
    }
  }

  /** What a refusal of an approval means. */
  predicate ApprovalReason(e: CapabilityError, trust: ApprovalTrust, approval: Signed<ApprovalClaims>, audience: string,
                           party: Party, d: Decision, p: Prepared, now: int)
  {
    if e.ApprovalIdentity? then approval.Malformed? || !KeyAccepted(trust.keys, approval.signer, trust.issuer, now)
    else
      approval.Cose? &&
      var a := approval.payload;
      match e
      case InvalidApprovalClaims => a.approver == ""
      case ApprovalLifetimeInvalid => !(0 < a.expiresAt - a.approvedAt <= 600)
      case ApprovalFromFuture => now < a.approvedAt
      case ApprovalExpired => a.expiresAt <= now
      case MissingPrimaryResource => p.resource.None?
      case _ => e.ApprovalMismatch? && !ApprovalBinds(a, approval.signer, trust.issuer, audience, party, d, p, now)
  }

  /** Every refusal of an approval names something that really is wrong with it. */
  lemma ApprovalRefusalsAreTrue(trust: ApprovalTrust, approval: Signed<ApprovalClaims>, audience: string, party: Party,
                                d: Decision, p: Prepared, now: int)
    requires VerifyApproval(trust, approval, audience, party, d, p, now).Err?
    ensures ApprovalReason(VerifyApproval(trust, approval, audience, party, d, p, now).error, trust, approval, audience,
                           party, d, p, now)
  {
    if approval.Cose? && KeyAccepted(trust.keys, approval.signer, trust.issuer, now) {
      var a := approval.payload;
      var rules := ApprovalRules(a, approval.signer, trust.issuer, audience, party, d, p, now);
      ApprovalRulesMeaning(a, approval.signer, trust.issuer, audience, party, d, p, now);
      FirstFailureIsARule(rules);
      ApprovalRulesAreTrue(a, rules, p, now, approval.signer, trust.issuer, audience, party, d);
    }
  }

  lemma ApprovalRulesAreTrue(a: ApprovalClaims, rules: seq<Rule>, p: Prepared, now: int, signer: KeyId, issuer: string,
                             audience: string, party: Party, d: Decision)
    requires rules == ApprovalRules(a, signer, issuer, audience, party, d, p, now)
    ensures forall i | 0 <= i < |rules| && !rules[i].holds ::
      match rules[i].error
      case InvalidApprovalClaims => a.approver == ""
      case ApprovalLifetimeInvalid => !(0 < a.expiresAt - a.approvedAt <= 600)
      case ApprovalFromFuture => now < a.approvedAt
      case ApprovalExpired => a.expiresAt <= now
      case MissingPrimaryResource => p.resource.None?
      case _ => rules[i].error.ApprovalMismatch?
  {
  }

  lemma EvidenceRefusalIsTrue(v: Validator, m: Memory, c: Claims, x: Context,
                              approval: Option<Signed<ApprovalClaims>>, now: int)
    requires CheckEvidence(v, m, c, x, approval, now).Err?
    ensures UseReason(CheckEvidence(v, m, c, x, approval, now).error, m, v, c, x, approval)
  {
    if v.approvals.Some? && approval.Some? {
      var verified := VerifyApproval(v.approvals.value, approval.value, v.audience, x.party, x.decision, x.prepared, now);
      if verified.Err? {
        ApprovalRefusal(v.approvals.value, approval.value, v.audience, x.party, x.decision, x.prepared, now);
      } else {
        VerifiedIsPayload(v.approvals.value, approval.value, v.audience, x.party, x.decision, x.prepared, now);
      }
    }
  }

  lemma VerifiedIsPayload(trust: ApprovalTrust, approval: Signed<ApprovalClaims>, audience: string, party: Party,
                          d: Decision, p: Prepared, now: int)
    requires VerifyApproval(trust, approval, audience, party, d, p, now).Ok?
    ensures approval.Cose? && VerifyApproval(trust, approval, audience, party, d, p, now).value == approval.payload
  {
  }

  lemma TokenRefusal(v: Validator, m: Memory, token: Signed<Claims>, x: Context,
                     approval: Option<Signed<ApprovalClaims>>, now: int)
    requires token.Cose? && KeyAccepted(v.trust, token.signer, v.issuer, now)
    requires FirstFailure(TokenRules(v, token.payload, token.signer, x, now)).Fail?
    ensures Authorize(v, m, token, x, approval, now)
      == Err(FirstFailure(TokenRules(v, token.payload, token.signer, x, now)).error)
  {
  }

  lemma UseRefusal(v: Validator, m: Memory, token: Signed<Claims>, x: Context,
                   approval: Option<Signed<ApprovalClaims>>, now: int)
    requires Authorize(v, m, token, x, approval, now).Err?
    requires token.Cose? && KeyAccepted(v.trust, token.signer, v.issuer, now)
    requires FirstFailure(TokenRules(v, token.payload, token.signer, x, now)).Pass?
    ensures UseReason(Authorize(v, m, token, x, approval, now).error, m, v, token.payload, x, approval)
  {
    if CheckEvidence(v, m, token.payload, x, approval, now).Err? {
      EvidenceRefusalIsTrue(v, m, token.payload, x, approval, now);
    }
  }

  /** Every refusal names something that really is wrong. */
  lemma RefusalsAreTrue(v: Validator, m: Memory, token: Signed<Claims>, x: Context,
                        approval: Option<Signed<ApprovalClaims>>, now: int)
    requires Authorize(v, m, token, x, approval, now).Err?
    ensures var e := Authorize(v, m, token, x, approval, now).error;
      if token.Malformed? || !KeyAccepted(v.trust, token.signer, v.issuer, now) then e.Identity?
      else TokenReason(e, v, token.payload, token.signer, x, now) || UseReason(e, m, v, token.payload, x, approval)
  {
    if token.Cose? && KeyAccepted(v.trust, token.signer, v.issuer, now) {
      if FirstFailure(TokenRules(v, token.payload, token.signer, x, now)).Fail? {
        TokenRulesAreTrue(v, token.payload, token.signer, x, now);
        TokenRefusal(v, m, token, x, approval, now);
      } else {
        UseRefusal(v, m, token, x, approval, now);
      }
    }
  }

  // ------------------------------------------------- issuer and validator agree

  /** What issuing establishes about a token and its approval. */
  predicate Issued(i: Issuer, r: Request, approval: Option<Signed<ApprovalClaims>>, c: Claims, at: int) {
    && c.typ == CAPABILITY_TYPE && c.version == CAPABILITY_VERSION
    && c.issuer == i.signer.issuer && c.issuerKey == i.signer.key && c.audience == i.audience
    && c.party == r.party && c.key == r.key && c.maxUses == 1 && c.profile == PROFILE
    && c.issuedAt == at && c.expiresAt == at + r.ttl && 0 < r.ttl <= MAX_TTL
    && SameInvocation(c.tool, c.digests, c.resource, r.prepared) && c.risk == r.prepared.risk && c.backend == r.prepared.backend
    && c.decisionId == r.decision.id && c.decision == Sha256(r.decision)
    && (if r.decision.requiresApproval then
          && approval.Some? && approval.value.Cose?
          && var a := approval.value.payload;
             c.evidence == Some(Evidence(a.approval, a.approver, a.approvedAt))
        else c.evidence == None)
  }

  /** When the issuer signs: the request, the decision and the approval are in order at that time. */
  predicate MayIssue(i: Issuer, r: Request, approval: Option<Signed<ApprovalClaims>>, at: int) {
    && Identifier(r.party.venture) && Identifier(r.party.subject) && Supported(r.prepared)
    && Decides(r.decision, i.audience, r.party, r.key, r.prepared)
    && Recent(r.decision, at, approval.Some?) && r.decision.allowed
    && (if r.decision.requiresApproval then
          approval.Some? && i.approvals.Some?
          && Approves(i.approvals.value, approval.value, i.audience, r.party, r.decision, r.prepared, at)
        else approval.None?)
    && 0 < r.ttl <= MAX_TTL && -0x8000_0000_0000_0000 <= at + r.ttl < 0x8000_0000_0000_0000
  }

  /** A token is issued exactly for a request in order, and it says exactly what was asked for. */
  lemma IssuesExactly(i: Issuer, r: Request, approval: Option<Signed<ApprovalClaims>>, token: Id, at: int)
    ensures var issued := Issue(i, r, approval, token, at);
      && (issued.Ok? <==> MayIssue(i, r, approval, at))
      && (issued.Ok? ==>
            && issued.value.Cose? && issued.value.signer == i.signer.key && issued.value.payload.token == token
            && Issued(i, r, approval, issued.value.payload, at))
  {
    IssueRulesMeaning(i, r, approval.Some?, at);
    IssueEvidenceMeaning(i, r, approval, at);
  }

  lemma IssueEvidenceMeaning(i: Issuer, r: Request, approval: Option<Signed<ApprovalClaims>>, at: int)
    ensures var evidence := IssueEvidence(i, r, approval, at);
      && (evidence.Ok? <==>
            if r.decision.requiresApproval then
              approval.Some? && i.approvals.Some?
              && Approves(i.approvals.value, approval.value, i.audience, r.party, r.decision, r.prepared, at)
            else approval.None?)
      && (evidence.Ok? ==>
            evidence.value == (if r.decision.requiresApproval then
                                 var a := approval.value.payload;
                                 Some(Evidence(a.approval, a.approver, a.approvedAt))
                               else None))
  {
    if approval.Some? && i.approvals.Some? {
      VerifiesExactly(i.approvals.value, approval.value, i.audience, r.party, r.decision, r.prepared, at);
    }
  }

  lemma IssueRulesMeaning(i: Issuer, r: Request, withApproval: bool, at: int)
    ensures FirstFailure(IssueRules(i, r, withApproval, at)).Pass?
      <==> (&& Identifier(r.party.venture) && Identifier(r.party.subject) && Supported(r.prepared)
            && Decides(r.decision, i.audience, r.party, r.key, r.prepared)
            && Recent(r.decision, at, withApproval) && r.decision.allowed)
  {
    var names := [Rule(Identifier(r.party.venture), InvalidVenture), Rule(Identifier(r.party.subject), InvalidSubject)];
    var supported, policy := SupportedRules(r.prepared), PolicyRules(r.decision, i.audience, r.party, r.key, r.prepared);
    var recent, last := FreshnessRules(r.decision, at, MaxAge(withApproval)), [Rule(r.decision.allowed, PolicyDenied)];
    RulesConcat(names + supported + policy + recent, last);
    RulesConcat(names + supported + policy, recent);
    RulesConcat(names + supported, policy);
    RulesConcat(names, supported);
    if FirstFailure(names).Pass? {
      assert names[0].holds && names[1].holds;
    }
    if FirstFailure(last).Pass? {
      assert last[0].holds;
    }
    SupportedRulesMeaning(r.prepared);
    PolicyRulesMeaning(r.decision, i.audience, r.party, r.key, r.prepared);
    FreshnessRulesMeaning(r.decision, at, MaxAge(withApproval));
  }

  /** The validator is set up for this issuer. */
  predicate Paired(i: Issuer, v: Validator) {
    v.issuer == i.signer.issuer && v.audience == i.audience && v.approvals == i.approvals
  }

  /** The claims of the token that a request was issued. */
  function IssuedClaims(i: Issuer, r: Request, approval: Option<Signed<ApprovalClaims>>, token: Id, at: int): Claims
    requires Issue(i, r, approval, token, at).Ok?
  {
    Issue(i, r, approval, token, at).value.payload
  }

  /** The decision of a request is recent, and the issuer's key and the approval hold. */
  predicate StillHolds(i: Issuer, v: Validator, r: Request, approval: Option<Signed<ApprovalClaims>>, now: int) {
    && Recent(r.decision, now, r.decision.requiresApproval)
    && KeyAccepted(v.trust, i.signer.key, v.issuer, now)
    && ApprovalHolds(v, approval, now)
  }

  /** The approval, if there is one, has not expired and its key is still accepted. */
  predicate ApprovalHolds(v: Validator, approval: Option<Signed<ApprovalClaims>>, now: int) {
    approval.Some? && approval.value.Cose? && v.approvals.Some? ==>
      && now < approval.value.payload.expiresAt
      && KeyAccepted(v.approvals.value.keys, approval.value.signer, v.approvals.value.issuer, now)
  }

  /** The claims of an issued token bind its own request exactly in its lifetime. */
  lemma IssuedBinds(i: Issuer, v: Validator, r: Request, approval: Option<Signed<ApprovalClaims>>, c: Claims, at: int, now: int)
    requires Paired(i, v) && MayIssue(i, r, approval, at) && Issued(i, r, approval, c, at)
    ensures Binds(v, c, i.signer.key, Context(r.party, r.decision, r.prepared), now)
      <==> at <= now < at + r.ttl && Recent(r.decision, now, r.decision.requiresApproval)
  {
  }

  /** Its evidence binds the approval it was issued with exactly while that approval holds. */
  lemma IssuedEvidenceBinds(i: Issuer, v: Validator, r: Request, approval: Option<Signed<ApprovalClaims>>, c: Claims, at: int, now: int)
    requires Paired(i, v) && MayIssue(i, r, approval, at) && Issued(i, r, approval, c, at) && at <= now
    ensures EvidenceBinds(v, c, Context(r.party, r.decision, r.prepared), approval, now)
      <==> ApprovalHolds(v, approval, now)
  {
  }

  /**
    A token issued for a request, presented with the same approval for the same
    request, is accepted exactly for the lifetime that was asked for, while its
    decision, key and approval hold, and once.
  */
  lemma IssuedTokenAcceptedExactly(i: Issuer, v: Validator, m: Memory, r: Request,
                                   approval: Option<Signed<ApprovalClaims>>, token: Id, at: int, now: int)
    requires Paired(i, v) && Issue(i, r, approval, token, at).Ok?
    ensures Authorize(v, m, Issue(i, r, approval, token, at).value, Context(r.party, r.decision, r.prepared), approval, now).Ok?
      <==> (&& at <= now < at + r.ttl
            && StillHolds(i, v, r, approval, now)
            && Unused(m, IssuedClaims(i, r, approval, token, at)))
  {
    var signed := Issue(i, r, approval, token, at).value;
    IssuesExactly(i, r, approval, token, at);
    AcceptedExactly(v, m, signed, Context(r.party, r.decision, r.prepared), approval, now);
    IssuedBinds(i, v, r, approval, signed.payload, at, now);
    if at <= now {
      IssuedEvidenceBinds(i, v, r, approval, signed.payload, at, now);
    }
  }

  /**
    Whatever request it was issued for, an accepted token was issued for this
    very decision, invocation and party, and the times are in order: evaluated,
    approved, issued, used, all before both expiries.
  */
  lemma AcceptedTokenIsInOrder(i: Issuer, v: Validator, m: Memory, r: Request, granted: Option<Signed<ApprovalClaims>>,
                               token: Id, at: int, x: Context, approval: Option<Signed<ApprovalClaims>>, now: int)
    requires Issue(i, r, granted, token, at).Ok?
    requires Authorize(v, m, Issue(i, r, granted, token, at).value, x, approval, now).Ok?
    ensures x.decision == r.decision && x.party == r.party
    ensures x.prepared.tool == r.prepared.tool && x.prepared.digests == r.prepared.digests
    ensures x.prepared.resource == r.prepared.resource
    ensures var c := Issue(i, r, granted, token, at).value.payload;
      x.decision.evaluatedAt <= at == c.issuedAt <= now < at + r.ttl == c.expiresAt
    ensures approval.Some? <==> granted.Some?
    ensures approval.Some? ==>
      && approval.value.Cose? && granted.value.Cose?
      && approval.value.payload.approval == granted.value.payload.approval
      && x.decision.evaluatedAt <= approval.value.payload.approvedAt <= at <= now < approval.value.payload.expiresAt
  {
    IssuesExactly(i, r, granted, token, at);
    AcceptedExactly(v, m, Issue(i, r, granted, token, at).value, x, approval, now);
  }

  /** An owner's approval is signed exactly for a proper name, lifetime and invocation, and says exactly that. */
  lemma ApprovesExactly(signer: Signer, g: GrantRequest, approval: Id, at: int)
    ensures var granted := ApproveInvocation(signer, g, approval, at);
      && (granted.Ok? <==>
            && 0 < g.ttl <= APPROVAL_MAX_TTL && Trimmed(g.approver) && Utf8Length(g.approver) <= 512
            && g.prepared.resource.Some? && -0x8000_0000_0000_0000 <= at + g.ttl < 0x8000_0000_0000_0000)
      && (granted.Ok? ==>
            granted.value.Cose? && granted.value.signer == signer.key &&
            var a := granted.value.payload;
               && a.approval == approval && a.approver == g.approver
               && a.approvedAt == at && a.expiresAt == at + g.ttl
               && a.typ == APPROVAL_TYPE && a.version == APPROVAL_VERSION
               && a.issuer == signer.issuer && a.issuerKey == signer.key && a.audience == g.audience
               && a.party == g.party && a.profile == PROFILE
               && SameInvocation(a.tool, a.digests, a.resource, g.prepared)
               && a.decisionId == g.decision.id && a.decision == Sha256(g.decision))
  {
    TrimKeepsExactly(g.approver);
  }

  /** An identifier has no blank at its ends, is at most 512 bytes long and free of control characters. */
  lemma IdentifierMeaning(s: string)
    ensures Identifier(s) <==> Trimmed(s) && Utf8Length(s) <= 512 && forall c <- s :: !IsControl(c)
  {
    TrimKeepsExactly(s);
  }

  /** An owner's approval passes the issuer and validator checks exactly from its time to its expiry. */
  lemma ApprovalVerifiesExactly(signer: Signer, g: GrantRequest, approval: Id, at: int, trust: ApprovalTrust, now: int)
    requires ApproveInvocation(signer, g, approval, at).Ok?
    requires trust.issuer == signer.issuer
    ensures VerifyApproval(trust, ApproveInvocation(signer, g, approval, at).value, g.audience, g.party,
                           g.decision, g.prepared, now).Ok?
      <==> (g.decision.evaluatedAt <= at <= now < at + g.ttl && KeyAccepted(trust.keys, signer.key, trust.issuer, now))
  {
    var signed := ApproveInvocation(signer, g, approval, at).value;
    ApprovalRulesMeaning(signed.payload, signer.key, trust.issuer, g.audience, g.party, g.decision, g.prepared, now);
  }

  /** A fingerprint determines everything an idempotency key is bound to, and nothing else. */
  lemma FingerprintExactly(c: Claims, c': Claims)
    ensures FingerprintOf(c) == FingerprintOf(c')
      <==> (&& c.audience == c'.audience && c.party == c'.party && c.tool == c'.tool && c.digests == c'.digests
            && c.profile == c'.profile && c.resource == c'.resource && c.decision == c'.decision
            && c.risk == c'.risk && c.backend == c'.backend)
  {
  }

  /** Equal fingerprints mean the same invocation under the same decision. */
  lemma FingerprintFixesInvocation(v: Validator, c: Claims, c': Claims, signer: KeyId, signer': KeyId,
                                   x: Context, x': Context, now: int, now': int)
    requires Binds(v, c, signer, x, now) && Binds(v, c', signer', x', now')
    ensures FingerprintOf(c) == FingerprintOf(c')
      <==> (&& x.decision == x'.decision && x.party == x'.party
            && SameInvocation(c.tool, c.digests, c.resource, x'.prepared))
  {
  }
}
