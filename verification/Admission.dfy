/**
  The content-addressed admission store of `crates/artifact`.  Digests are
  symbols, a manifest payload is parsed by an input function, and a crash is a
  prefix of the writes of `admit`.
*/
module Admission {
  import opened Wrappers
  import opened Identity

  datatype Profile = Profile(backend: string, risk: string, abi: string)

  /** What the parser makes of a manifest payload that is structurally valid. */
  datatype Manifest = Manifest(component: Digest<string>, profile: Profile)

  /** The domain-separated digest of a manifest payload. */
  datatype ManifestDigest = OfManifest(text: string)

  datatype Artifact = Artifact(component: Digest<string>, manifest: ManifestDigest, bytes: string, payload: string)

  datatype InstallationState = Admitted | Revoked | UnsupportedState

  datatype Record = Record(
    typ: string,
    version: nat,
    admission: Id,
    issuer: string,
    key: KeyId,
    component: Digest<string>,
    manifest: ManifestDigest,
    profile: Profile,
    capabilities: seq<string>,
    state: InstallationState,
    canonicalization: string,
    admittedAt: int)

  datatype AdmittedArtifact = AdmittedArtifact(artifact: Artifact, record: Record)

  datatype StoreError =
    | ComponentCorrupted | ManifestCorrupted | RecordExists | RecordNotFound
    | Untrusted(error: IdentityError) | RecordMismatch(field: string)
    | Missing | InvalidManifest | ComponentMismatch

  datatype Files = Files(
    objects: map<Digest<string>, string>,
    manifests: map<ManifestDigest, string>,
    admissions: map<ManifestDigest, Signed<Record>>)

  datatype Write =
    | PutObject(digest: Digest<string>, bytes: string)
    | PutManifest(manifest: ManifestDigest, payload: string)
    | PutAdmission(admitted: ManifestDigest, record: Signed<Record>)

  type Parser = string -> Option<Manifest>

  const RECORD_TYPE := "sovereign.artifact-admission"
  const RECORD_VERSION := 1
  const PROFILE := "rfc8785-jcs+sovereign-digest-v1"

  /** A publisher-verified artifact: its digests are those of its bytes and payload. */
  predicate Verified(parse: Parser, a: Artifact) {
    && a.component == Sha256(a.bytes) && a.manifest == OfManifest(a.payload)
    && parse(a.payload).Some? && parse(a.payload).value.component == a.component
  }

  function Apply(f: Files, w: Write): Files {
    match w
    case PutObject(digest, bytes) => f.(objects := f.objects[digest := bytes])
    case PutManifest(manifest, payload) => f.(manifests := f.manifests[manifest := payload])
    case PutAdmission(admitted, record) => f.(admissions := f.admissions[admitted := record])
  }

  function ApplyAll(f: Files, writes: seq<Write>): Files {
    if writes == [] then f else Apply(ApplyAll(f, writes[..|writes| - 1]), writes[|writes| - 1])
  }

  function RecordFor(parse: Parser, a: Artifact, signer: KeyId, issuer: string, admission: Id, at: int): Record
    requires parse(a.payload).Some?
  {
    Record(RECORD_TYPE, RECORD_VERSION, admission, issuer, signer, a.component, a.manifest,
           parse(a.payload).value.profile, [], Admitted, PROFILE, at)
  }

  datatype Plan = Plan(writes: seq<Write>, outcome: Result<AdmittedArtifact, StoreError>)

  /** `admit`: a name that exists is trusted only after its bytes rehash. */
  function PlanAdmit(parse: Parser, f: Files, a: Artifact, signer: KeyId, issuer: string, admission: Id, at: int): Plan
    requires Verified(parse, a)
  {
    if a.manifest in f.admissions then Plan([], Err(RecordExists))
    else if a.component in f.objects && Sha256(f.objects[a.component]) != a.component then Plan([], Err(ComponentCorrupted))
    else
      var objectPart := if a.component in f.objects then [] else [PutObject(a.component, a.bytes)];
      if a.manifest in f.manifests && OfManifest(f.manifests[a.manifest]) != a.manifest then
        Plan(objectPart, Err(ManifestCorrupted))
      else
        var manifestPart := if a.manifest in f.manifests then [] else [PutManifest(a.manifest, a.payload)];
        var record := RecordFor(parse, a, signer, issuer, admission, at);
        Plan(objectPart + manifestPart + [PutAdmission(a.manifest, Cose(signer, record))], Ok(AdmittedArtifact(a, record)))
  }

  /** `load`: trust comes from the record's signature and from rehashing everything. */
  function Load(parse: Parser, f: Files, component: Digest<string>, manifest: ManifestDigest,
                trust: TrustStore, issuer: string, now: int): Result<AdmittedArtifact, StoreError>
  {
    if manifest !in f.admissions then Err(RecordNotFound)
    else
      var verified := VerifySignature(trust, f.admissions[manifest], issuer, now);
      if verified.Err? then Err(Untrusted(verified.error))
      else
        var r := verified.value;
        var mismatch := RecordFault(r, f.admissions[manifest].signer, component, manifest, issuer, now);
        if mismatch.Fail? then Err(mismatch.error)
        else if manifest !in f.manifests then Err(Missing)
        else if OfManifest(f.manifests[manifest]) != manifest then Err(ManifestCorrupted)
        else
          var parsed := parse(f.manifests[manifest]);
          if parsed.None? then Err(InvalidManifest)
          else if parsed.value.component != component then Err(ComponentMismatch)
          else if parsed.value.profile != r.profile then Err(RecordMismatch("runtime_profile"))
          else if component !in f.objects then Err(Missing)
          else if Sha256(f.objects[component]) != component then Err(ComponentCorrupted)
          else Ok(AdmittedArtifact(Artifact(component, manifest, f.objects[component], f.manifests[manifest]), r))
  }

  function RecordFault(r: Record, signer: KeyId, component: Digest<string>, manifest: ManifestDigest,
                       issuer: string, now: int): Check<StoreError>
  {
    if r.typ != RECORD_TYPE then Fail(RecordMismatch("typ"))
    else if r.version != RECORD_VERSION then Fail(RecordMismatch("version"))
    else if r.issuer != issuer then Fail(RecordMismatch("admitting_issuer"))
    else if r.key != signer then Fail(RecordMismatch("admitting_key_id"))
    else if r.component != component then Fail(RecordMismatch("component_digest"))
    else if r.manifest != manifest then Fail(RecordMismatch("manifest_digest"))
    else if r.state != Admitted then Fail(RecordMismatch("installation_state"))
    else if r.capabilities != [] then Fail(RecordMismatch("effective_host_capabilities"))
    else if r.canonicalization != PROFILE then Fail(RecordMismatch("canonicalization_profile"))
    else if r.admittedAt > now then Fail(RecordMismatch("admitted_at_unix"))
    else Pass
  }

  // ------------------------------------------------------------ what admit means

  /** An artifact is admitted exactly when no record is published and what is there under its names rehashes. */
  lemma AdmitsExactly(parse: Parser, f: Files, a: Artifact, signer: KeyId, issuer: string, admission: Id, at: int)
    requires Verified(parse, a)
    ensures var outcome := PlanAdmit(parse, f, a, signer, issuer, admission, at).outcome;
      var objectFits := a.component in f.objects ==> Sha256(f.objects[a.component]) == a.component;
      var manifestFits := a.manifest in f.manifests ==> OfManifest(f.manifests[a.manifest]) == a.manifest;
      && (outcome.Ok? <==> a.manifest !in f.admissions && objectFits && manifestFits)
      && (outcome == Err(RecordExists) <==> a.manifest in f.admissions)
      && (outcome == Err(ComponentCorrupted) <==> a.manifest !in f.admissions && !objectFits)
      && (outcome == Err(ManifestCorrupted) <==> a.manifest !in f.admissions && objectFits && !manifestFits)
  {
  }

  // -------------------------------------------------------------- what load means

  /** The record of an admission of exactly these digests, in force at that time and granting nothing. */
  predicate InForce(r: Record, signer: KeyId, component: Digest<string>, manifest: ManifestDigest, issuer: string, now: int) {
    && r.typ == "sovereign.artifact-admission" && r.version == 1 && r.canonicalization == "rfc8785-jcs+sovereign-digest-v1"
    && r.issuer == issuer && r.key == signer
    && r.component == component && r.manifest == manifest
    && r.state == Admitted && r.capabilities == [] && r.admittedAt <= now
  }

  /** The stored bytes are those of the two digests, and the manifest is about that component. */
  predicate Stored(parse: Parser, f: Files, component: Digest<string>, manifest: ManifestDigest, profile: Profile) {
    && manifest in f.manifests && OfManifest(f.manifests[manifest]) == manifest
    && component in f.objects && Sha256(f.objects[component]) == component
    && parse(f.manifests[manifest]) == Some(Manifest(component, profile))
  }

  /** A load succeeds exactly for a trusted record in force over the stored bytes, and returns those bytes and that record. */
  lemma LoadsExactly(parse: Parser, f: Files, component: Digest<string>, manifest: ManifestDigest,
                     trust: TrustStore, issuer: string, now: int)
    ensures var loaded := Load(parse, f, component, manifest, trust, issuer, now);
      && (loaded.Ok? <==>
            && manifest in f.admissions && f.admissions[manifest].Cose?
            && var r, signer := f.admissions[manifest].payload, f.admissions[manifest].signer;
               && KeyAccepted(trust, signer, issuer, now)
               && InForce(r, signer, component, manifest, issuer, now)
               && Stored(parse, f, component, manifest, r.profile))
      && (loaded.Ok? ==>
            loaded.value == AdmittedArtifact(
              Artifact(component, manifest, f.objects[component], f.manifests[manifest]), f.admissions[manifest].payload))
  {
  }

  /** Every refusal of a load names something that really is wrong. */
  lemma LoadRefusalsAreTrue(parse: Parser, f: Files, component: Digest<string>, manifest: ManifestDigest,
                            trust: TrustStore, issuer: string, now: int)
    requires Load(parse, f, component, manifest, trust, issuer, now).Err?
    ensures match Load(parse, f, component, manifest, trust, issuer, now).error
      case RecordNotFound => manifest !in f.admissions
      case Untrusted(_) =>
        manifest in f.admissions
        && (f.admissions[manifest].Cose? ==> !KeyAccepted(trust, f.admissions[manifest].signer, issuer, now))
      case RecordMismatch(_) =>
        manifest in f.admissions && f.admissions[manifest].Cose?
        && var r := f.admissions[manifest].payload;
           !InForce(r, f.admissions[manifest].signer, component, manifest, issuer, now)
           || !Stored(parse, f, component, manifest, r.profile)
      case Missing => manifest !in f.manifests || component !in f.objects
      case ManifestCorrupted => manifest in f.manifests && OfManifest(f.manifests[manifest]) != manifest
      case InvalidManifest => manifest in f.manifests && parse(f.manifests[manifest]).None?
      case ComponentMismatch =>
        manifest in f.manifests && parse(f.manifests[manifest]).Some? && parse(f.manifests[manifest]).value.component != component
      case ComponentCorrupted => component in f.objects && Sha256(f.objects[component]) != component
      case RecordExists => false
  {
  }

  // ------------------------------------------------------------- round trip

  lemma ApplyPlan(f: Files, a: seq<Write>, w: Write)
    ensures ApplyAll(f, a + [w]) == Apply(ApplyAll(f, a), w)
  {
    assert (a + [w])[..|a|] == a;
  }

  /** The files a completed admission leaves. */
  lemma AdmitLeaves(parse: Parser, f: Files, a: Artifact, signer: KeyId, issuer: string, admission: Id, at: int)
    requires Verified(parse, a) && PlanAdmit(parse, f, a, signer, issuer, admission, at).outcome.Ok?
    ensures var after := ApplyAll(f, PlanAdmit(parse, f, a, signer, issuer, admission, at).writes);
      && after.objects == f.objects[a.component := a.bytes]
      && after.manifests == f.manifests[a.manifest := a.payload]
      && after.admissions
           == f.admissions[a.manifest := Cose(signer, RecordFor(parse, a, signer, issuer, admission, at))]
  {
    var objectPart := if a.component in f.objects then [] else [PutObject(a.component, a.bytes)];
    var manifestPart := if a.manifest in f.manifests then [] else [PutManifest(a.manifest, a.payload)];
    var put := PutAdmission(a.manifest, Cose(signer, RecordFor(parse, a, signer, issuer, admission, at)));
    ApplyPlan(f, objectPart + manifestPart, put);
    if a.manifest !in f.manifests {
      ApplyPlan(f, objectPart, PutManifest(a.manifest, a.payload));
    } else {
      assert objectPart + manifestPart == objectPart;
      assert f.manifests[a.manifest := a.payload] == f.manifests;
    }
    if a.component !in f.objects {
      assert [] + objectPart == objectPart;
      ApplyPlan(f, [], PutObject(a.component, a.bytes));
    } else {
      assert f.objects[a.component := a.bytes] == f.objects;
    }
  }

  /** Loading what was admitted gives the same artifact exactly while its key is trusted and its time has come. */
  lemma LoadAfterAdmit(parse: Parser, f: Files, a: Artifact, signer: KeyId, issuer: string, admission: Id, at: int,
                       trust: TrustStore, now: int)
    requires Verified(parse, a) && PlanAdmit(parse, f, a, signer, issuer, admission, at).outcome.Ok?
    ensures var plan := PlanAdmit(parse, f, a, signer, issuer, admission, at);
      var loaded := Load(parse, ApplyAll(f, plan.writes), a.component, a.manifest, trust, issuer, now);
      && (loaded.Ok? <==> KeyAccepted(trust, signer, issuer, now) && at <= now)
      && (loaded.Ok? ==> loaded == plan.outcome && loaded.value.artifact == a)
      && (loaded.Ok? ==> loaded.value.record.admission == admission && loaded.value.record.admittedAt == at)
  {
    var plan := PlanAdmit(parse, f, a, signer, issuer, admission, at);
    AdmitLeaves(parse, f, a, signer, issuer, admission, at);
    AdmittedOutcome(parse, f, a, signer, issuer, admission, at);
    LoadPresent(parse, ApplyAll(f, plan.writes), a, RecordFor(parse, a, signer, issuer, admission, at), signer, trust, issuer, now);
  }

  lemma AdmittedOutcome(parse: Parser, f: Files, a: Artifact, signer: KeyId, issuer: string, admission: Id, at: int)
    requires Verified(parse, a) && PlanAdmit(parse, f, a, signer, issuer, admission, at).outcome.Ok?
    ensures PlanAdmit(parse, f, a, signer, issuer, admission, at).outcome
      == Ok(AdmittedArtifact(a, RecordFor(parse, a, signer, issuer, admission, at)))
  {
  }

  /** Loading from files that hold the artifact and a record of its admission. */
  lemma LoadPresent(parse: Parser, f: Files, a: Artifact, r: Record, signer: KeyId, trust: TrustStore, issuer: string, now: int)
    requires Verified(parse, a) && r == RecordFor(parse, a, signer, issuer, r.admission, r.admittedAt)
    requires a.manifest in f.admissions && f.admissions[a.manifest] == Cose(signer, r)
    requires a.manifest in f.manifests && f.manifests[a.manifest] == a.payload
    requires a.component in f.objects && f.objects[a.component] == a.bytes
    ensures var loaded := Load(parse, f, a.component, a.manifest, trust, issuer, now);
      && (loaded.Ok? <==> KeyAccepted(trust, signer, issuer, now) && r.admittedAt <= now)
      && (loaded.Ok? ==> loaded == Ok(AdmittedArtifact(a, r)))
  {
  }

  /** Whatever the files hold, a load that succeeds returns the very artifact with those digests, admitted by a trusted key. */
  lemma LoadReturnsTheArtifact(parse: Parser, f: Files, a: Artifact, trust: TrustStore, issuer: string, now: int)
    requires Verified(parse, a)
    requires Load(parse, f, a.component, a.manifest, trust, issuer, now).Ok?
    ensures var loaded := Load(parse, f, a.component, a.manifest, trust, issuer, now).value;
      && loaded.artifact == a
      && f.admissions[a.manifest] == Cose(loaded.record.key, loaded.record)
      && KeyAccepted(trust, loaded.record.key, issuer, now)
      && loaded.record.component == a.component && loaded.record.manifest == a.manifest
  {
  }

  // ------------------------------------------------------------ crash points

  /** A published record has its object and its manifest, both rehashing to their names. */
  predicate Complete(f: Files) {
    && (forall d <- f.objects.Keys :: Sha256(f.objects[d]) == d)
    && (forall m <- f.manifests.Keys :: OfManifest(f.manifests[m]) == m)
    && (forall m <- f.admissions.Keys ::
          m in f.manifests && f.admissions[m].Cose? && f.admissions[m].payload.component in f.objects)
  }

  function Cut(writes: seq<Write>, n: nat): seq<Write> { if n < |writes| then writes[..n] else writes }

  /** Interrupted after any of its writes, an admission leaves the store complete. */
  lemma EveryCrashPointIsComplete(parse: Parser, f: Files, a: Artifact, signer: KeyId, issuer: string, admission: Id,
                                  at: int, n: nat)
    requires Verified(parse, a) && Complete(f)
    ensures Complete(ApplyAll(f, Cut(PlanAdmit(parse, f, a, signer, issuer, admission, at).writes, n)))
  {
    var plan := PlanAdmit(parse, f, a, signer, issuer, admission, at);
    if plan.outcome.Ok? {
      if n >= |plan.writes| {
        AdmitLeaves(parse, f, a, signer, issuer, admission, at);
      } else {
        PartialAdmission(parse, f, a, signer, issuer, admission, at, n);
        PartlyComplete(f, a, n);
      }
    } else {
      NothingPublished(parse, f, a, signer, issuer, admission, at);
    }
  }

  lemma NothingPublished(parse: Parser, f: Files, a: Artifact, signer: KeyId, issuer: string, admission: Id, at: int)
    requires Verified(parse, a) && Complete(f)
    ensures var plan := PlanAdmit(parse, f, a, signer, issuer, admission, at);
      plan.outcome.Err? <==> plan == Plan([], Err(RecordExists))
    ensures PlanAdmit(parse, f, a, signer, issuer, admission, at).outcome.Err? <==> a.manifest in f.admissions
  {
  }

  /** The files after the first `n` writes of an admission, when its record is not among them. */
  function Partly(f: Files, a: Artifact, n: nat): Files {
    var needObject, needManifest := a.component !in f.objects, a.manifest !in f.manifests;
    f.(objects := if needObject && n >= 1 then f.objects[a.component := a.bytes] else f.objects,
       manifests := if needManifest && n >= (if needObject then 2 else 1) then f.manifests[a.manifest := a.payload]
                    else f.manifests)
  }

  lemma PartlyComplete(f: Files, a: Artifact, n: nat)
    requires Complete(f) && a.component == Sha256(a.bytes) && a.manifest == OfManifest(a.payload)
    ensures Complete(Partly(f, a, n)) && Partly(f, a, n).admissions == f.admissions
  {
  }

  /** Before its last write an admission has only added the object and the manifest. */
  lemma PartialAdmission(parse: Parser, f: Files, a: Artifact, signer: KeyId, issuer: string, admission: Id, at: int, n: nat)
    requires Verified(parse, a)
    requires PlanAdmit(parse, f, a, signer, issuer, admission, at).outcome.Ok?
    requires n < |PlanAdmit(parse, f, a, signer, issuer, admission, at).writes|
    ensures ApplyAll(f, Cut(PlanAdmit(parse, f, a, signer, issuer, admission, at).writes, n)) == Partly(f, a, n)
  {
    var writes := PlanAdmit(parse, f, a, signer, issuer, admission, at).writes;
    var objectPart := if a.component in f.objects then [] else [PutObject(a.component, a.bytes)];
    var manifestPart := if a.manifest in f.manifests then [] else [PutManifest(a.manifest, a.payload)];
    assert n <= |objectPart + manifestPart| && Cut(writes, n) == (objectPart + manifestPart)[..n];
    CutParts(f, a, objectPart, manifestPart, n);
  }

  lemma ApplyTwo(f: Files, w: Write, v: Write)
    ensures ApplyAll(f, [w]) == Apply(f, w)
    ensures ApplyAll(f, [w, v]) == Apply(Apply(f, w), v)
  {
    assert [w] == [] + [w] && [w, v] == [w] + [v];
    ApplyPlan(f, [], w);
    ApplyPlan(f, [w], v);
  }

  lemma CutParts(f: Files, a: Artifact, objectPart: seq<Write>, manifestPart: seq<Write>, n: nat)
    requires objectPart == if a.component in f.objects then [] else [PutObject(a.component, a.bytes)]
    requires manifestPart == if a.manifest in f.manifests then [] else [PutManifest(a.manifest, a.payload)]
    requires n <= |objectPart + manifestPart|
    ensures ApplyAll(f, (objectPart + manifestPart)[..n]) == Partly(f, a, n)
  {
    var putObject, putManifest := PutObject(a.component, a.bytes), PutManifest(a.manifest, a.payload);
    ApplyTwo(f, putObject, putManifest);
    ApplyTwo(f, putManifest, putManifest);
    if n == 0 {
      assert (objectPart + manifestPart)[..n] == [];
    } else if a.component in f.objects {
      assert (objectPart + manifestPart)[..n] == [putManifest];
    } else if n == 1 {
      assert (objectPart + manifestPart)[..n] == [putObject];
    } else {
      assert (objectPart + manifestPart)[..n] == [putObject, putManifest];
    }
  }

  /** An interrupted admission can be retried: it succeeds unless the record was already published. */
  lemma InterruptedAdmitIsRetryable(parse: Parser, f: Files, a: Artifact, signer: KeyId, issuer: string,
                                    admission: Id, at: int, n: nat, retry: Id, later: int)
    requires Verified(parse, a) && Complete(f)
    requires PlanAdmit(parse, f, a, signer, issuer, admission, at).outcome.Ok?
    ensures var writes := PlanAdmit(parse, f, a, signer, issuer, admission, at).writes;
      var e := ApplyAll(f, Cut(writes, n));
      PlanAdmit(parse, e, a, signer, issuer, retry, later).outcome.Ok? <==> n < |writes|
  {
    var writes := PlanAdmit(parse, f, a, signer, issuer, admission, at).writes;
    var e := ApplyAll(f, Cut(writes, n));
    if n < |writes| {
      PartialAdmission(parse, f, a, signer, issuer, admission, at, n);
      PartlyComplete(f, a, n);
      NothingPublished(parse, e, a, signer, issuer, retry, later);
    } else {
      AdmitLeaves(parse, f, a, signer, issuer, admission, at);
    }
  }

  // --------------------------------------------------------------------- runs

  /** One call of `admit`, interrupted after some of its writes or not at all. */
  datatype Attempt = Attempt(artifact: Artifact, signer: KeyId, issuer: string, admission: Id, at: int, crashAfter: nat)

  const EMPTY_FILES := Files(map[], map[], map[])

  predicate AllVerified(parse: Parser, attempts: seq<Attempt>) {
    forall t <- attempts :: Verified(parse, t.artifact)
  }

  function AfterAttempt(parse: Parser, f: Files, t: Attempt): Files
    requires Verified(parse, t.artifact)
  {
    ApplyAll(f, Cut(PlanAdmit(parse, f, t.artifact, t.signer, t.issuer, t.admission, t.at).writes, t.crashAfter))
  }

  function RunAttempts(parse: Parser, f: Files, attempts: seq<Attempt>): Files
    requires AllVerified(parse, attempts)
    decreases |attempts|
  {
    if attempts == [] then f else RunAttempts(parse, AfterAttempt(parse, f, attempts[0]), attempts[1..])
  }

  /** A published record is that of the very artifact the other files hold under its digests. */
  predicate Loadable(parse: Parser, f: Files, m: ManifestDigest) {
    && m in f.admissions && m in f.manifests && f.admissions[m].Cose?
    && var r := f.admissions[m].payload;
    && r.component in f.objects
    && var a := Artifact(r.component, m, f.objects[r.component], f.manifests[m]);
    && Verified(parse, a)
    && r == RecordFor(parse, a, f.admissions[m].signer, r.issuer, r.admission, r.admittedAt)
  }

  ghost predicate AllLoadable(parse: Parser, f: Files) {
    Complete(f) && forall m <- f.admissions.Keys :: Loadable(parse, f, m)
  }

  lemma MoreFilesLoadable(parse: Parser, f: Files, e: Files, m: ManifestDigest)
    requires Complete(f) && Complete(e) && Loadable(parse, f, m)
    requires m in e.admissions && e.admissions[m] == f.admissions[m]
    requires f.objects.Keys <= e.objects.Keys && f.manifests.Keys <= e.manifests.Keys
    ensures Loadable(parse, e, m)
  {
    var component := f.admissions[m].payload.component;
    assert Sha256(e.objects[component]) == component == Sha256(f.objects[component]);
    assert OfManifest(e.manifests[m]) == m == OfManifest(f.manifests[m]);
  }

  lemma AdmittedIsLoadable(parse: Parser, f: Files, t: Attempt)
    requires Verified(parse, t.artifact) && Complete(f)
    requires var a := t.artifact;
      && a.manifest in f.admissions && a.manifest in f.manifests && a.component in f.objects
      && f.admissions[a.manifest] == Cose(t.signer, RecordFor(parse, a, t.signer, t.issuer, t.admission, t.at))
    ensures Loadable(parse, f, t.artifact.manifest)
  {
    var a := t.artifact;
    assert OfManifest(f.manifests[a.manifest]) == a.manifest == OfManifest(a.payload);
    assert Sha256(f.objects[a.component]) == a.component == Sha256(a.bytes);
  }

  /** Either nothing was published, or exactly the record of the attempt. */
  lemma AttemptAdds(parse: Parser, f: Files, t: Attempt)
    requires Verified(parse, t.artifact) && Complete(f)
    ensures var e, a := AfterAttempt(parse, f, t), t.artifact;
      && f.objects.Keys <= e.objects.Keys && f.manifests.Keys <= e.manifests.Keys
      && (e.admissions == f.admissions
          || (&& a.manifest in e.manifests && a.component in e.objects && a.manifest !in f.admissions
              && e.admissions == f.admissions[
                   a.manifest := Cose(t.signer, RecordFor(parse, a, t.signer, t.issuer, t.admission, t.at))]))
  {
    var a := t.artifact;
    var plan := PlanAdmit(parse, f, a, t.signer, t.issuer, t.admission, t.at);
    NothingPublished(parse, f, a, t.signer, t.issuer, t.admission, t.at);
    if plan.outcome.Ok? {
      if t.crashAfter < |plan.writes| {
        PartialAdmission(parse, f, a, t.signer, t.issuer, t.admission, t.at, t.crashAfter);
      } else {
        AdmitLeaves(parse, f, a, t.signer, t.issuer, t.admission, t.at);
      }
    }
  }

  lemma AttemptKeepsLoadable(parse: Parser, f: Files, t: Attempt)
    requires Verified(parse, t.artifact) && AllLoadable(parse, f)
    ensures AllLoadable(parse, AfterAttempt(parse, f, t))
  {
    var e, a := AfterAttempt(parse, f, t), t.artifact;
    EveryCrashPointIsComplete(parse, f, a, t.signer, t.issuer, t.admission, t.at, t.crashAfter);
    AttemptAdds(parse, f, t);
    forall m <- e.admissions.Keys ensures Loadable(parse, e, m) {
      if m in f.admissions {
        MoreFilesLoadable(parse, f, e, m);
      } else {
        AdmittedIsLoadable(parse, e, t);
      }
    }
  }

  lemma {:induction false} RunKeepsLoadable(parse: Parser, f: Files, attempts: seq<Attempt>)
    requires AllVerified(parse, attempts) && AllLoadable(parse, f)
    ensures AllLoadable(parse, RunAttempts(parse, f, attempts))
    decreases |attempts|
  {
    if attempts != [] {
      AttemptKeepsLoadable(parse, f, attempts[0]);
      RunKeepsLoadable(parse, AfterAttempt(parse, f, attempts[0]), attempts[1..]);
    }
  }

  /**
    Whatever admissions ran from an empty store, each interrupted anywhere or
    not at all, every published record has its object and manifest and loads
    exactly for its issuer, while its key is accepted, from its time on.
  */
  lemma EveryPublishedRecordLoads(parse: Parser, attempts: seq<Attempt>, m: ManifestDigest, trust: TrustStore,
                                  issuer: string, now: int)
    requires AllVerified(parse, attempts) && m in RunAttempts(parse, EMPTY_FILES, attempts).admissions
    ensures var f := RunAttempts(parse, EMPTY_FILES, attempts);
      && Complete(f) && f.admissions[m].Cose?
      && var r := f.admissions[m].payload;
      && r.component in f.objects && m in f.manifests
      && (Load(parse, f, r.component, m, trust, issuer, now).Ok?
          <==> r.issuer == issuer && KeyAccepted(trust, f.admissions[m].signer, issuer, now) && r.admittedAt <= now)
  {
    var f := RunAttempts(parse, EMPTY_FILES, attempts);
    RunKeepsLoadable(parse, EMPTY_FILES, attempts);
    assert Loadable(parse, f, m);
    var r := f.admissions[m].payload;
    if r.issuer == issuer {
      LoadPresent(parse, f, Artifact(r.component, m, f.objects[r.component], f.manifests[m]), r,
                  f.admissions[m].signer, trust, issuer, now);
    }
  }

  // --------------------------------------------------------------- the class

  class ArtifactStore {
    const parse: Parser
    var files: Files
    var writesLeft: nat

    constructor (parse: Parser, files: Files, writes: nat)
      ensures this.parse == parse && this.files == files && writesLeft == writes
    {
      this.parse, this.files, writesLeft := parse, files, writes;
    }

    method Put(w: Write) returns (alive: bool)
      modifies this
      ensures alive == (old(writesLeft) > 0)
      ensures files == (if alive then Apply(old(files), w) else old(files))
      ensures writesLeft == if alive then old(writesLeft) - 1 else 0
    {
      if writesLeft == 0 { return false; }
      files := Apply(files, w);
      writesLeft := writesLeft - 1;
      return true;
    }

    /** An existing object is reused only after it rehashes. */
    method StoreObject(a: Artifact) returns (r: Option<Check<StoreError>>)
      modifies this
      ensures var have := a.component in old(files).objects;
        var bad := have && Sha256(old(files).objects[a.component]) != a.component;
        && files == (if have || old(writesLeft) == 0 then old(files) else Apply(old(files), PutObject(a.component, a.bytes)))
        && writesLeft == (if have || old(writesLeft) == 0 then old(writesLeft) else old(writesLeft) - 1)
        && r == (if bad then Some(Fail(ComponentCorrupted)) else if have || old(writesLeft) > 0 then Some(Pass) else None)
    {
      if a.component in files.objects {
        if Sha256(files.objects[a.component]) != a.component { return Some(Fail(ComponentCorrupted)); }
        return Some(Pass);
      }
      var alive := Put(PutObject(a.component, a.bytes));
      return if alive then Some(Pass) else None;
    }

    method StoreManifest(a: Artifact) returns (r: Option<Check<StoreError>>)
      modifies this
      ensures var have := a.manifest in old(files).manifests;
        var bad := have && OfManifest(old(files).manifests[a.manifest]) != a.manifest;
        && files == (if have || old(writesLeft) == 0 then old(files) else Apply(old(files), PutManifest(a.manifest, a.payload)))
        && writesLeft == (if have || old(writesLeft) == 0 then old(writesLeft) else old(writesLeft) - 1)
        && r == (if bad then Some(Fail(ManifestCorrupted)) else if have || old(writesLeft) > 0 then Some(Pass) else None)
    {
      if a.manifest in files.manifests {
        if OfManifest(files.manifests[a.manifest]) != a.manifest { return Some(Fail(ManifestCorrupted)); }
        return Some(Pass);
      }
      var alive := Put(PutManifest(a.manifest, a.payload));
      return if alive then Some(Pass) else None;
    }

    /** No answer after a crash. */
    method Admit(a: Artifact, signer: KeyId, issuer: string, admission: Id, at: int)
      returns (r: Option<Result<AdmittedArtifact, StoreError>>)
      requires Verified(parse, a)
      modifies this
      ensures var plan := PlanAdmit(parse, old(files), a, signer, issuer, admission, at);
        && files == ApplyAll(old(files), Cut(plan.writes, old(writesLeft)))
        && r == if old(writesLeft) < |plan.writes| then None else Some(plan.outcome)
    {
      ghost var f, budget := files, writesLeft;
      ghost var plan := PlanAdmit(parse, f, a, signer, issuer, admission, at);
      ghost var objectPart := if a.component in f.objects then [] else [PutObject(a.component, a.bytes)];
      ghost var manifestPart := if a.manifest in f.manifests then [] else [PutManifest(a.manifest, a.payload)];
      if a.manifest in files.admissions {
        return Some(Err(RecordExists));
      }
      var first := StoreObject(a);
      AfterSome(f, objectPart, [], budget);
      assert objectPart + [] == objectPart;
      if first.None? {
        assert Cut(plan.writes, 0) == [];
        return None;
      }
      if first.value.Fail? { return Some(Err(first.value.error)); }
      assert files == ApplyAll(f, objectPart);
      var second := StoreManifest(a);
      if second.None? {
        assert Cut(plan.writes, budget) == objectPart;
        return None;
      }
      if second.value.Fail? { return Some(Err(second.value.error)); }
      AfterSome(f, objectPart, manifestPart, budget);
      assert files == ApplyAll(f, objectPart + manifestPart);
      var record := RecordFor(parse, a, signer, issuer, admission, at);
      var put := PutAdmission(a.manifest, Cose(signer, record));
      assert plan.writes == objectPart + manifestPart + [put];
      var alive := Put(put);
      if !alive {
        assert Cut(plan.writes, budget) == objectPart + manifestPart;
        return None;
      }
      ApplyPlan(f, objectPart + manifestPart, put);
      return Some(Ok(AdmittedArtifact(a, record)));
    }
  }

  /** At most one write each for the object and the manifest. */
  lemma AfterSome(f: Files, a: seq<Write>, b: seq<Write>, n: nat)
    requires |a| <= 1 && |b| <= 1
    ensures a != [] ==> ApplyAll(f, a) == Apply(f, a[0])
    ensures b != [] ==> ApplyAll(f, a + b) == Apply(ApplyAll(f, a), b[0])
    ensures b == [] ==> ApplyAll(f, a + b) == ApplyAll(f, a)
  {
    if a != [] {
      assert a == [] + [a[0]];
      ApplyPlan(f, [], a[0]);
    }
    if b != [] {
      assert b == [b[0]];
      ApplyPlan(f, a, b[0]);
    } else {
      assert a + b == a;
    }
  }
}
