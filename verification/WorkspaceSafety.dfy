/** Lists of durable writes that keep the invariant, and the durable send made of them. */
module WorkspaceSafety {
  import opened Wrappers
  import opened AuditLedger
  import opened WorkspaceTypes
  import opened WorkspaceOps
  import opened Integrity
  import opened WorkspaceInvariant
  import WF = Workflow

  // ------------------------------------------------------------ write lists

  lemma {:induction false} ApplyAllConcat(d: Disk, a: seq<Write>, b: seq<Write>)
    ensures ApplyAll(d, a + b) == ApplyAll(ApplyAll(d, a), b)
    decreases |a|
  {
    if a == [] {
      assert a + b == b;
    } else {
      assert (a + b)[1..] == a[1..] + b;
      ApplyAllConcat(Apply(d, a[0]), a[1..], b);
    }
  }

  /** The invariant holds before, between and after the writes. */
  ghost predicate SafeAll(key: Key, d: Disk, writes: seq<Write>, revoking: set<Id>)
    decreases |writes|
  {
    Inv(key, d, revoking) && (writes != [] ==> SafeAll(key, Apply(d, writes[0]), writes[1..], revoking))
  }

  lemma {:induction false} SafeAllPrefix(key: Key, d: Disk, writes: seq<Write>, revoking: set<Id>, k: nat)
    requires SafeAll(key, d, writes, revoking) && k <= |writes|
    ensures Inv(key, ApplyAll(d, writes[..k]), revoking)
    decreases |writes|
  {
    if k > 0 {
      assert writes[..k][0] == writes[0] && writes[..k][1..] == writes[1..][..k - 1];
      SafeAllPrefix(key, Apply(d, writes[0]), writes[1..], revoking, k - 1);
    }
  }

  lemma {:induction false} SafeAllConcat(key: Key, d: Disk, a: seq<Write>, b: seq<Write>, revoking: set<Id>)
    requires SafeAll(key, d, a, revoking) && SafeAll(key, ApplyAll(d, a), b, revoking)
    ensures SafeAll(key, d, a + b, revoking)
    decreases |a|
  {
    if a == [] {
      assert a + b == b;
    } else {
      assert (a + b)[0] == a[0] && (a + b)[1..] == a[1..] + b;
      SafeAllConcat(key, Apply(d, a[0]), a[1..], b, revoking);
    }
  }

  lemma SafeOne(key: Key, d: Disk, w: Write, revoking: set<Id>)
    requires Inv(key, d, revoking) && Inv(key, Apply(d, w), revoking)
    ensures SafeAll(key, d, [w], revoking)
    ensures ApplyAll(d, [w]) == Apply(d, w)
  {
    assert [w][1..] == [];
  }

  lemma MoreRevoking(key: Key, d: Disk, revoking: set<Id>, more: set<Id>)
    requires Inv(key, d, revoking) && revoking <= more
    ensures Inv(key, d, more)
  {
    forall j | 0 <= j < |d.vault.approvals| ensures SendState(d, d.vault.approvals[j], more) {
      assert SendState(d, d.vault.approvals[j], revoking);
    }
  }

  // ------------------------------------------------------------ the commits

  lemma AppendedHas(key: Key, ledger: Ledger, entries: seq<AuditEntry>, stamp: Stamp, i: nat)
    requires Verified(ledger, key) && i < |entries|
    ensures Has(AppendedAll(ledger, entries, stamp.firstEventId, stamp.at, key), entries[i].action, entries[i].resource)
  {
    AppendAllExtends(ledger, entries, stamp.firstEventId, stamp.at, key);
    assert AppendedAll(ledger, entries, stamp.firstEventId, stamp.at, key)[|ledger| + i].body.content == entries[i];
  }

  ghost function Signed(cfg: Config, d: Disk, entries: seq<AuditEntry>, stamp: Stamp): Disk {
    d.(ledger := AppendedAll(d.ledger, entries, stamp.firstEventId, stamp.at, cfg.deviceKey))
  }

  /** The first write of a commit: the chain runs ahead of the state, and that is safe. */
  lemma SignedSafe(cfg: Config, d: Disk, entries: seq<AuditEntry>, stamp: Stamp, revoking: set<Id>)
    requires Inv(cfg.deviceKey, d, revoking)
    ensures Inv(cfg.deviceKey, Signed(cfg, d, entries, stamp), revoking)
    ensures forall i | 0 <= i < |entries| ::
      Has(Signed(cfg, d, entries, stamp).ledger, entries[i].action, entries[i].resource)
    ensures PlanAppend(cfg, d, entries, stamp) == Plan([SaveLedger(Signed(cfg, d, entries, stamp).ledger)], Done)
  {
    FaultFreeIffVerified(d.ledger, Some(cfg.deviceKey));
    AppendAllExtends(d.ledger, entries, stamp.firstEventId, stamp.at, cfg.deviceKey);
    LedgerWriteSafe(cfg.deviceKey, d, revoking, Signed(cfg, d, entries, stamp).ledger);
    forall i | 0 <= i < |entries|
      ensures Has(Signed(cfg, d, entries, stamp).ledger, entries[i].action, entries[i].resource)
    {
      AppendedHas(cfg.deviceKey, d.ledger, entries, stamp, i);
    }
  }

  lemma CommitSafe(cfg: Config, d: Disk, vault: Workspace, entries: seq<AuditEntry>, stamp: Stamp, revoking: set<Id>)
    requires Inv(cfg.deviceKey, d, revoking)
    requires Inv(cfg.deviceKey, Signed(cfg, d, entries, stamp).(vault := vault), revoking)
    ensures var plan := PlanCommit(cfg, d, vault, entries, stamp);
      && SafeAll(cfg.deviceKey, d, plan.writes, revoking)
      && plan.outcome == Done
      && ApplyAll(d, plan.writes) == Signed(cfg, d, entries, stamp).(vault := vault)
      && plan.writes == [SaveLedger(Signed(cfg, d, entries, stamp).ledger), PutVault(vault)]
  {
    SignedSafe(cfg, d, entries, stamp, revoking);
    var d1 := Signed(cfg, d, entries, stamp);
    var writes := [SaveLedger(d1.ledger), PutVault(vault)];
    assert PlanCommit(cfg, d, vault, entries, stamp).writes == writes;
    assert writes[1..] == [PutVault(vault)];
    SafeOne(cfg.deviceKey, d1, PutVault(vault), revoking);
  }

  // -------------------------------------------------------- the durable send

  /** A write to the files of one approval's send. */
  predicate SendWrite(w: Write, a: Approval) {
    match w
    case RemoveEml(document) => document == a.documentId
    case PutEml(document, _) => document == a.documentId
    case PutRecord(approval, _) => approval == a.id
    case PutCheckpoint(approval, _) => approval == a.id
    case _ => false
  }

  /** Only the files of approval `a` changed. */
  ghost predicate OnlySend(d: Disk, d': Disk, a: Approval) {
    && d'.ledger == d.ledger && d'.vault == d.vault
    && (forall id | id != a.documentId ::
          (id in d'.outbox <==> id in d.outbox) && (id in d.outbox ==> d'.outbox[id] == d.outbox[id]))
    && (forall id | id != a.id ::
          (id in d'.records <==> id in d.records) && (id in d.records ==> d'.records[id] == d.records[id]))
    && (forall id | id != a.id ::
          (id in d'.checkpoints <==> id in d.checkpoints)
          && (id in d.checkpoints ==> d'.checkpoints[id] == d.checkpoints[id]))
  }

  lemma OnlySendSafe(key: Key, d: Disk, d': Disk, revoking: set<Id>, j: nat)
    requires Inv(key, d, revoking) && j < |d.vault.approvals|
    requires OnlySend(d, d', d.vault.approvals[j])
    requires SendState(d', d.vault.approvals[j], revoking)
    ensures Inv(key, d', revoking)
  {
    var a := d.vault.approvals[j];
    FindApprovalAt(d.vault, j);
    assert HasApproval(d.vault.approvals, a.documentId);
    forall k | 0 <= k < |d.vault.approvals| ensures SendState(d', d.vault.approvals[k], revoking) {
      if k != j {
        SameSend(d, d', d.vault.approvals[k], revoking);
      }
    }
  }

  lemma SendWriteSafe(key: Key, d: Disk, w: Write, revoking: set<Id>, j: nat)
    requires Inv(key, d, revoking) && j < |d.vault.approvals|
    requires SendWrite(w, d.vault.approvals[j])
    requires SendState(Apply(d, w), d.vault.approvals[j], revoking)
    ensures Inv(key, Apply(d, w), revoking)
    ensures SafeAll(key, d, [w], revoking)
    ensures ApplyAll(d, [w]) == Apply(d, w)
    ensures Apply(d, w).vault == d.vault && Apply(d, w).ledger == d.ledger
  {
    OnlySendSafe(key, d, Apply(d, w), revoking, j);
    SafeOne(key, d, w, revoking);
  }

  lemma FindApprovalAt(vault: Workspace, j: nat)
    requires Lifecycle(vault) && j < |vault.approvals|
    ensures FindApproval(vault.approvals, vault.approvals[j].id) == Some(j)
  {
    var k := FindApproval(vault.approvals, vault.approvals[j].id);
    assert vault.approvals[j] in vault.approvals;
  }

  /** How each write of a send changes that send's own state. */
  lemma CheckpointOfPut(d: Disk, id: Id, c: SendCheckpoint)
    ensures CheckpointOf(Apply(d, PutCheckpoint(id, c)), id) == c
  {
  }

  lemma RemovedState(d: Disk, a: Approval, revoking: set<Id>)
    requires SendState(d, a, revoking) && a.status == Pending && |CheckpointOf(d, a.id).completed| == 0
    ensures SendState(Apply(d, RemoveEml(a.documentId)), a, revoking)
  {
  }

  lemma WrittenState(d: Disk, a: Approval, message: string, revoking: set<Id>)
    requires SendState(d, a, revoking) && a.status == Pending && |CheckpointOf(d, a.id).completed| == 0
    ensures SendState(Apply(d, PutEml(a.documentId, message)), a, revoking)
  {
  }

  lemma RecordedState(d: Disk, a: Approval, record: SignedApprovalRecord, revoking: set<Id>)
    requires SendState(d, a, revoking) && a.status == Pending && |CheckpointOf(d, a.id).completed| == 0
    ensures SendState(Apply(d, PutRecord(a.id, record)), a, revoking)
  {
  }

  lemma ExecutedState(d: Disk, a: Approval, revoking: set<Id>)
    requires SendState(d, a, revoking) && a.status == Pending && |CheckpointOf(d, a.id).completed| == 0
    requires EmlMatches(d, a) && d.records[a.id].outbox.value.emlOf == a.documentId
    ensures var next := WithReceipt(CheckpointOf(d, a.id), a.id, 0, EXECUTE_STEP, RecordBytes(d.records[a.id]));
      |next.completed| == 1 && SendState(Apply(d, PutCheckpoint(a.id, next)), a, revoking)
  {
    CheckpointOfPut(d, a.id, WithReceipt(CheckpointOf(d, a.id), a.id, 0, EXECUTE_STEP, RecordBytes(d.records[a.id])));
  }

  lemma CommittedState(d: Disk, a: Approval, revoking: set<Id>)
    requires SendState(d, a, revoking) && a.status == Approved && |CheckpointOf(d, a.id).completed| == 1
    ensures var next := WithReceipt(CheckpointOf(d, a.id), a.id, 1, COMMIT_STEP, Committed);
      |next.completed| == 2 && SendState(Apply(d, PutCheckpoint(a.id, next)), a, revoking)
  {
    CheckpointOfPut(d, a.id, WithReceipt(CheckpointOf(d, a.id), a.id, 1, COMMIT_STEP, Committed));
  }

  lemma FinishedState(d: Disk, a: Approval, revoking: set<Id>)
    requires SendState(d, a, revoking) && |CheckpointOf(d, a.id).completed| == 2
    ensures SendState(Apply(d, PutCheckpoint(a.id, CheckpointOf(d, a.id).(done := true))), a, revoking)
  {
    CheckpointOfPut(d, a.id, CheckpointOf(d, a.id).(done := true));
  }

  /** A pending approval whose send may run. */
  ghost predicate Sending(key: Key, d: Disk, j: nat, revoking: set<Id>) {
    Inv(key, d, revoking) && j < |d.vault.approvals| && d.vault.approvals[j].status == Pending
  }

  lemma SendingFacts(key: Key, d: Disk, j: nat, revoking: set<Id>)
    requires Inv(key, d, revoking) && j < |d.vault.approvals|
    ensures var a := d.vault.approvals[j];
      && SendState(d, a, revoking) && InStep(d.vault, a)
      && FindApproval(d.vault.approvals, a.id) == Some(j)
      && FindDocument(d.vault.documents, a.documentId).Some?
  {
    FindApprovalAt(d.vault, j);
  }

  lemma RemovalSafe(key: Key, d: Disk, j: nat, revoking: set<Id>)
    requires Sending(key, d, j, revoking)
    requires |CheckpointOf(d, d.vault.approvals[j].id).completed| == 0
    ensures var a := d.vault.approvals[j];
      var removal := if a.documentId in d.outbox then [RemoveEml(a.documentId)] else [];
      && SafeAll(key, d, removal, revoking)
      && ApplyAll(d, removal) == Apply(d, RemoveEml(a.documentId))
      && Inv(key, Apply(d, RemoveEml(a.documentId)), revoking)
  {
    var a := d.vault.approvals[j];
    SendingFacts(key, d, j, revoking);
    RemovedState(d, a, revoking);
    SendWriteSafe(key, d, RemoveEml(a.documentId), revoking, j);
    if a.documentId !in d.outbox {
      assert d.outbox - {a.documentId} == d.outbox;
    }
  }

  /** One write of the execute step leaves a send that may go on. */
  ghost predicate StillSending(key: Key, d: Disk, w: Write, j: nat, revoking: set<Id>)
    requires j < |d.vault.approvals|
  {
    && SafeAll(key, d, [w], revoking) && ApplyAll(d, [w]) == Apply(d, w)
    && Sending(key, Apply(d, w), j, revoking)
    && Apply(d, w).vault == d.vault
    && CheckpointOf(Apply(d, w), d.vault.approvals[j].id) == CheckpointOf(d, d.vault.approvals[j].id)
  }

  lemma MessageSafe(key: Key, d: Disk, j: nat, message: string, revoking: set<Id>)
    requires Sending(key, d, j, revoking)
    requires |CheckpointOf(d, d.vault.approvals[j].id).completed| == 0
    ensures StillSending(key, d, PutEml(d.vault.approvals[j].documentId, message), j, revoking)
  {
    var a := d.vault.approvals[j];
    SendingFacts(key, d, j, revoking);
    WrittenState(d, a, message, revoking);
    SendWriteSafe(key, d, PutEml(a.documentId, message), revoking, j);
  }

  lemma RecordSafe(key: Key, d: Disk, j: nat, record: SignedApprovalRecord, revoking: set<Id>)
    requires Sending(key, d, j, revoking)
    requires |CheckpointOf(d, d.vault.approvals[j].id).completed| == 0
    ensures StillSending(key, d, PutRecord(d.vault.approvals[j].id, record), j, revoking)
  {
    var a := d.vault.approvals[j];
    SendingFacts(key, d, j, revoking);
    RecordedState(d, a, record, revoking);
    SendWriteSafe(key, d, PutRecord(a.id, record), revoking, j);
  }

  /** The message and then the record. */
  lemma EffectSafe(key: Key, d: Disk, j: nat, message: string, record: SignedApprovalRecord, revoking: set<Id>)
    requires Sending(key, d, j, revoking)
    requires |CheckpointOf(d, d.vault.approvals[j].id).completed| == 0
    ensures var a := d.vault.approvals[j];
      var writes := [PutEml(a.documentId, message), PutRecord(a.id, record)];
      && SafeAll(key, d, writes, revoking)
      && ApplyAll(d, writes) == Apply(Apply(d, writes[0]), writes[1])
      && Inv(key, ApplyAll(d, writes), revoking)
  {
    var a := d.vault.approvals[j];
    var w0, w1 := PutEml(a.documentId, message), PutRecord(a.id, record);
    MessageSafe(key, d, j, message, revoking);
    RecordSafe(key, Apply(d, w0), j, record, revoking);
    SafeAllConcat(key, d, [w0], [w1], revoking);
    ApplyAllConcat(d, [w0], [w1]);
    assert [w0] + [w1] == [w0, w1];
  }

  /** The writes of an execute step that may run: removal of an orphan, then message and record. */
  function ExecuteWrites(d: Disk, a: Approval, record: SignedApprovalRecord, message: string): seq<Write> {
    (if a.documentId in d.outbox then [RemoveEml(a.documentId)] else [])
    + [PutEml(a.documentId, message), PutRecord(a.id, record)]
  }

  lemma ExecuteShape(d: Disk, a: Approval, kernel: Option<KernelRun>, message: string)
    requires FindApproval(d.vault.approvals, a.id).Some?
    requires d.vault.approvals[FindApproval(d.vault.approvals, a.id).value].status == Pending
    requires FindDocument(d.vault.documents, a.documentId).Some?
    ensures var plan := PlanExecute(d, a, kernel, message);
      plan == if kernel.None?
        then Plan(if a.documentId in d.outbox then [RemoveEml(a.documentId)] else [], Failed(KernelFailed))
        else Plan(ExecuteWrites(d, a, ExecutedRecord(a, kernel.value, message), message), Done)
  {
  }

  ghost function AfterExecute(d: Disk, a: Approval, record: SignedApprovalRecord, message: string): Disk {
    Apply(Apply(Apply(d, RemoveEml(a.documentId)), PutEml(a.documentId, message)), PutRecord(a.id, record))
  }

  lemma ExecuteWritesSafe(key: Key, d: Disk, j: nat, message: string, record: SignedApprovalRecord, revoking: set<Id>)
    requires Sending(key, d, j, revoking)
    requires |CheckpointOf(d, d.vault.approvals[j].id).completed| == 0
    ensures var a := d.vault.approvals[j];
      && SafeAll(key, d, ExecuteWrites(d, a, record, message), revoking)
      && ApplyAll(d, ExecuteWrites(d, a, record, message)) == AfterExecute(d, a, record, message)
      && Inv(key, AfterExecute(d, a, record, message), revoking)
  {
    var a := d.vault.approvals[j];
    RemovalSafe(key, d, j, revoking);
    var d1 := Apply(d, RemoveEml(a.documentId));
    var removal := if a.documentId in d.outbox then [RemoveEml(a.documentId)] else [];
    var effects := [PutEml(a.documentId, message), PutRecord(a.id, record)];
    assert Sending(key, d1, j, revoking);
    assert CheckpointOf(d1, a.id) == CheckpointOf(d, a.id);
    EffectSafe(key, d1, j, message, record, revoking);
    SafeAllConcat(key, d, removal, effects, revoking);
    ApplyAllConcat(d, removal, effects);
  }

  /** After the first step its receipt is durable. */
  lemma Step0Safe(key: Key, d: Disk, j: nat, kernel: Option<KernelRun>, message: string, revoking: set<Id>)
    requires Sending(key, d, j, revoking)
    ensures var a := d.vault.approvals[j];
      var plan := PlanStep0(d, a, kernel, message);
      var after := ApplyAll(d, plan.writes);
      && SafeAll(key, d, plan.writes, revoking)
      && plan.outcome == (if |CheckpointOf(d, a.id).completed| == 0 && kernel.None? then Failed(KernelFailed) else Done)
      && (plan.outcome.Done? ==>
            && after.vault == d.vault && after.ledger == d.ledger
            && Inv(key, after, revoking)
            && |CheckpointOf(after, a.id).completed| == 1
            && CheckpointOf(d, a.id).completed <= CheckpointOf(after, a.id).completed)
  {
    var a := d.vault.approvals[j];
    SendingFacts(key, d, j, revoking);
    if |CheckpointOf(d, a.id).completed| == 0 {
      ExecuteShape(d, a, kernel, message);
      if kernel.None? {
        RemovalSafe(key, d, j, revoking);
      } else {
        FirstSendSafe(key, d, j, kernel.value, message, revoking);
      }
    }
  }

  lemma FirstSendSafe(key: Key, d: Disk, j: nat, run: KernelRun, message: string, revoking: set<Id>)
    requires Sending(key, d, j, revoking)
    requires |CheckpointOf(d, d.vault.approvals[j].id).completed| == 0
    ensures var a := d.vault.approvals[j];
      var record := ExecutedRecord(a, run, message);
      var put := PutCheckpoint(a.id, WithReceipt(CheckpointOf(d, a.id), a.id, 0, EXECUTE_STEP, RecordBytes(record)));
      var writes := ExecuteWrites(d, a, record, message) + [put];
      var after := ApplyAll(d, writes);
      && SafeAll(key, d, writes, revoking)
      && after.vault == d.vault && after.ledger == d.ledger
      && Inv(key, after, revoking)
      && |CheckpointOf(after, a.id).completed| == 1
  {
    var a := d.vault.approvals[j];
    var record := ExecutedRecord(a, run, message);
    var writes := ExecuteWrites(d, a, record, message);
    var put := PutCheckpoint(a.id, WithReceipt(CheckpointOf(d, a.id), a.id, 0, EXECUTE_STEP, RecordBytes(record)));
    var done := AfterExecute(d, a, record, message);
    ExecuteWritesSafe(key, d, j, message, record, revoking);
    ExecutedMatches(d, a, run, message);
    assert Sending(key, done, j, revoking);
    Receipt0Safe(key, done, j, revoking);
    SafeAllConcat(key, d, writes, [put], revoking);
    ApplyAllConcat(d, writes, [put]);
  }

  lemma ExecutedMatches(d: Disk, a: Approval, run: KernelRun, message: string)
    ensures var record := ExecutedRecord(a, run, message);
      var after := AfterExecute(d, a, record, message);
      && EmlMatches(after, a)
      && after.records[a.id] == record && record.outbox.value.emlOf == a.documentId
      && after.vault == d.vault && after.ledger == d.ledger
      && CheckpointOf(after, a.id) == CheckpointOf(d, a.id)
  {
  }

  lemma Receipt0Safe(key: Key, d: Disk, j: nat, revoking: set<Id>)
    requires Sending(key, d, j, revoking) && |CheckpointOf(d, d.vault.approvals[j].id).completed| == 0
    requires EmlMatches(d, d.vault.approvals[j])
    requires d.records[d.vault.approvals[j].id].outbox.value.emlOf == d.vault.approvals[j].documentId
    ensures var a := d.vault.approvals[j];
      var next := WithReceipt(CheckpointOf(d, a.id), a.id, 0, EXECUTE_STEP, RecordBytes(d.records[a.id]));
      var after := Apply(d, PutCheckpoint(a.id, next));
      && SafeAll(key, d, [PutCheckpoint(a.id, next)], revoking)
      && ApplyAll(d, [PutCheckpoint(a.id, next)]) == after
      && after.vault == d.vault && after.ledger == d.ledger
      && Inv(key, after, revoking)
      && |CheckpointOf(after, a.id).completed| == 1
  {
    var a := d.vault.approvals[j];
    var next := WithReceipt(CheckpointOf(d, a.id), a.id, 0, EXECUTE_STEP, RecordBytes(d.records[a.id]));
    SendingFacts(key, d, j, revoking);
    ExecutedState(d, a, revoking);
    SendWriteSafe(key, d, PutCheckpoint(a.id, next), revoking, j);
    CheckpointOfPut(d, a.id, next);
  }

  /** What the commit of a checkpointed send leaves. */
  ghost predicate Granting(cfg: Config, d: Disk, after: Disk, j: nat, stamp: Stamp)
    requires j < |d.vault.approvals| && d.vault.approvals[j].id in d.records
  {
    var a := d.vault.approvals[j];
    && after.ledger == Signed(cfg, d, GrantEntries(a, d.records[a.id]), stamp).ledger
    && j < |after.vault.approvals|
    && after.vault.approvals[j]
         == a.(status := Approved, decidedAt := Some(stamp.at), evidence := Some(d.records[a.id]))
    && (forall id :: StatusOf(after.vault, id)
                  == if id == a.documentId then Some(ApprovedPendingDelivery) else StatusOf(d.vault, id))
    && after.vault.customers == d.vault.customers
  }

  lemma CommitDecisionSafe(cfg: Config, d: Disk, j: nat, stamp: Stamp, revoking: set<Id>)
    requires Sending(cfg.deviceKey, d, j, revoking)
    requires |CheckpointOf(d, d.vault.approvals[j].id).completed| == 1
    ensures var a := d.vault.approvals[j];
      var plan := PlanCommitDecision(cfg, d, a, stamp);
      var after := ApplyAll(d, plan.writes);
      && a.id in d.records
      && SafeAll(cfg.deviceKey, d, plan.writes, revoking)
      && plan.outcome == Done
      && Inv(cfg.deviceKey, after, revoking)
      && after.checkpoints == d.checkpoints
      && Granting(cfg, d, after, j, stamp)
  {
    var a := d.vault.approvals[j];
    SendingFacts(cfg.deviceKey, d, j, revoking);
    var record := d.records[a.id];
    var i := FindDocument(d.vault.documents, a.documentId).value;
    var decided := a.(status := Approved, decidedAt := Some(stamp.at), evidence := Some(record));
    var vault := Decided(d.vault, j, i, decided, ApprovedPendingDelivery);
    var entries := GrantEntries(a, record);
    SignedSafe(cfg, d, entries, stamp, revoking);
    assert entries[0].action == ApprovalGranted && entries[2].action == FileWritten;
    GrantSafe(cfg.deviceKey, Signed(cfg, d, entries, stamp), revoking, j, i, decided);
    CommitSafe(cfg, d, vault, entries, stamp, revoking);
    DecisionKeepsLifecycle(d.vault, j, i, decided, ApprovedPendingDelivery);
  }

  lemma Receipt1Safe(key: Key, d: Disk, j: nat, revoking: set<Id>)
    requires Inv(key, d, revoking) && j < |d.vault.approvals| && d.vault.approvals[j].status == Approved
    requires |CheckpointOf(d, d.vault.approvals[j].id).completed| == 1
    ensures var a := d.vault.approvals[j];
      var next := WithReceipt(CheckpointOf(d, a.id), a.id, 1, COMMIT_STEP, Committed);
      var after := Apply(d, PutCheckpoint(a.id, next));
      && SafeAll(key, d, [PutCheckpoint(a.id, next)], revoking)
      && ApplyAll(d, [PutCheckpoint(a.id, next)]) == after
      && after.vault == d.vault && after.ledger == d.ledger
      && Inv(key, after, revoking)
      && |CheckpointOf(after, a.id).completed| == 2
      && CheckpointOf(d, a.id).completed <= CheckpointOf(after, a.id).completed
  {
    var a := d.vault.approvals[j];
    var next := WithReceipt(CheckpointOf(d, a.id), a.id, 1, COMMIT_STEP, Committed);
    SendingFacts(key, d, j, revoking);
    CommittedState(d, a, revoking);
    SendWriteSafe(key, d, PutCheckpoint(a.id, next), revoking, j);
    CheckpointOfPut(d, a.id, next);
  }

  lemma Step1Safe(cfg: Config, d: Disk, j: nat, stamp: Stamp, revoking: set<Id>)
    requires Sending(cfg.deviceKey, d, j, revoking)
    requires |CheckpointOf(d, d.vault.approvals[j].id).completed| == 1
    ensures var a := d.vault.approvals[j];
      var plan := PlanStep1(cfg, d, a, stamp);
      var after := ApplyAll(d, plan.writes);
      && a.id in d.records
      && SafeAll(cfg.deviceKey, d, plan.writes, revoking)
      && plan.outcome == Done
      && Inv(cfg.deviceKey, after, revoking)
      && Granting(cfg, d, after, j, stamp)
      && |CheckpointOf(after, a.id).completed| == 2
      && CheckpointOf(d, a.id).completed <= CheckpointOf(after, a.id).completed
  {
    var a := d.vault.approvals[j];
    CommitDecisionSafe(cfg, d, j, stamp, revoking);
    var commit := PlanCommitDecision(cfg, d, a, stamp);
    var put := PutCheckpoint(a.id, WithReceipt(CheckpointOf(d, a.id), a.id, 1, COMMIT_STEP, Committed));
    Receipt1Safe(cfg.deviceKey, ApplyAll(d, commit.writes), j, revoking);
    SafeAllConcat(cfg.deviceKey, d, commit.writes, [put], revoking);
    ApplyAllConcat(d, commit.writes, [put]);
  }

  lemma FinishSafe(key: Key, d: Disk, j: nat, revoking: set<Id>)
    requires Inv(key, d, revoking) && j < |d.vault.approvals|
    requires |CheckpointOf(d, d.vault.approvals[j].id).completed| == 2
    ensures var plan := PlanFinish(d, d.vault.approvals[j]);
      SafeAll(key, d, plan.writes, revoking)
      && ApplyAll(d, plan.writes).vault == d.vault && ApplyAll(d, plan.writes).ledger == d.ledger
  {
    var a := d.vault.approvals[j];
    SendingFacts(key, d, j, revoking);
    if !CheckpointOf(d, a.id).done {
      FinishedState(d, a, revoking);
      SendWriteSafe(key, d, PutCheckpoint(a.id, CheckpointOf(d, a.id).(done := true)), revoking, j);
    }
  }

  lemma ThenSafe(key: Key, d: Disk, first: Plan, next: Disk -> Plan, revoking: set<Id>)
    requires SafeAll(key, d, first.writes, revoking)
    requires first.outcome.Done? ==>
      SafeAll(key, ApplyAll(d, first.writes), next(ApplyAll(d, first.writes)).writes, revoking)
    ensures SafeAll(key, d, Then(d, first, next).writes, revoking)
    ensures Then(d, first, next).outcome.Done? ==>
      first.outcome.Done?
      && ApplyAll(d, Then(d, first, next).writes)
           == ApplyAll(ApplyAll(d, first.writes), next(ApplyAll(d, first.writes)).writes)
  {
    if first.outcome.Done? {
      var second := next(ApplyAll(d, first.writes)).writes;
      SafeAllConcat(key, d, first.writes, second, revoking);
      ApplyAllConcat(d, first.writes, second);
    }
  }

  /** The stored receipts never contradict the two declared steps. */
  lemma SendDoesNotDiverge(d: Disk, a: Approval)
    requires CheckpointShape(d, a)
    ensures WF.Diverges(CheckpointOf(d, a.id).completed, SEND_STEPS).Pass?
  {
    var completed := CheckpointOf(d, a.id).completed;
    WF.PrefixDoesNotDiverge(completed, SEND_STEPS, 0);
  }

  /** The commit step and the final checkpoint, from a checkpointed first step. */
  lemma SettledSafe(cfg: Config, d: Disk, j: nat, stamp: Stamp, revoking: set<Id>)
    requires Sending(cfg.deviceKey, d, j, revoking)
    requires |CheckpointOf(d, d.vault.approvals[j].id).completed| == 1
    ensures var a := d.vault.approvals[j];
      var plan := Then(d, PlanStep1(cfg, d, a, stamp), d2 => PlanFinish(d2, a));
      && a.id in d.records
      && SafeAll(cfg.deviceKey, d, plan.writes, revoking)
      && plan.outcome.Done?
      && Granting(cfg, d, ApplyAll(d, plan.writes), j, stamp)
  {
    var a := d.vault.approvals[j];
    Step1Safe(cfg, d, j, stamp, revoking);
    var d2 := ApplyAll(d, PlanStep1(cfg, d, a, stamp).writes);
    FinishOfSafe(cfg.deviceKey, d2, j, a, revoking);
    ThenSafe(cfg.deviceKey, d, PlanStep1(cfg, d, a, stamp), d2 => PlanFinish(d2, a), revoking);
  }

  lemma FinishOfSafe(key: Key, d: Disk, j: nat, a: Approval, revoking: set<Id>)
    requires Inv(key, d, revoking) && j < |d.vault.approvals| && d.vault.approvals[j].id == a.id
    requires |CheckpointOf(d, a.id).completed| == 2
    ensures var plan := PlanFinish(d, a);
      SafeAll(key, d, plan.writes, revoking)
      && ApplyAll(d, plan.writes).vault == d.vault && ApplyAll(d, plan.writes).ledger == d.ledger
  {
    FinishSafe(key, d, j, revoking);
    assert PlanFinish(d, a) == PlanFinish(d, d.vault.approvals[j]);
  }

  /** A send keeps the invariant at every write, and when it is done its decision is committed with its evidence. */
  lemma SendSafe(cfg: Config, d: Disk, j: nat, kernel: Option<KernelRun>, date: string, stamp: Stamp, revoking: set<Id>)
    requires Sending(cfg.deviceKey, d, j, revoking)
    ensures var a := d.vault.approvals[j];
      var plan := PlanSend(cfg, d, a, kernel, date, stamp);
      var d1 := ApplyAll(d, PlanStep0(d, a, kernel, MessageFor(d.vault, a.documentId, date)).writes);
      && SafeAll(cfg.deviceKey, d, plan.writes, revoking)
      && plan.outcome == (if |CheckpointOf(d, a.id).completed| == 0 && kernel.None? then Failed(KernelFailed) else Done)
      && (plan.outcome.Done? ==>
            && d1.vault == d.vault && d1.ledger == d.ledger && a.id in d1.records
            && Granting(cfg, d1, ApplyAll(d, plan.writes), j, stamp))
  {
    var a := d.vault.approvals[j];
    SendingFacts(cfg.deviceKey, d, j, revoking);
    SendDoesNotDiverge(d, a);
    var message := MessageFor(d.vault, a.documentId, date);
    var first := PlanStep0(d, a, kernel, message);
    Step0Safe(cfg.deviceKey, d, j, kernel, message, revoking);
    var next := (d1: Disk) => Then(d1, PlanStep1(cfg, d1, a, stamp), d2 => PlanFinish(d2, a));
    if first.outcome.Done? {
      SettledSafe(cfg, ApplyAll(d, first.writes), j, stamp, revoking);
    }
    ThenSafe(cfg.deviceKey, d, first, next, revoking);
    assert PlanSend(cfg, d, a, kernel, date, stamp) == Then(d, first, next);
  }
}
