/** When the self-audit reports an interrupted operation: exactly when the crash fell inside a commit it can see. */
module WorkspaceWarnings {
  import opened Wrappers
  import opened AuditLedger
  import opened WorkspaceTypes
  import opened WorkspaceOps
  import opened Integrity
  import opened WorkspaceInvariant
  import opened WorkspaceSafety
  import opened WorkspaceOpSafety
  import opened WorkspaceFrame
  import opened WorkspaceRuns
  import opened WorkspaceHealing
  import opened WorkspaceRejection

  // ------------------------------------------------ the writes of an operation

  /** The chain of a commit: its first new event is the one that stands for the operation. */
  predicate Announces(d: Disk, op: Op, ledger: Ledger) {
    d.ledger < ledger && ledger[|d.ledger|].body.content.action == ActionOf(op)
  }

  /** Files, then nothing or the two saves of a commit, then files. */
  ghost predicate Commits(d: Disk, op: Op, before: seq<Write>, rest: seq<Write>) {
    && FilesOnly(before)
    && (rest != [] ==>
          && |rest| >= 2 && rest[0].SaveLedger? && rest[1].PutVault? && FilesOnly(rest[2..])
          && Announces(d, op, rest[0].ledger))
  }

  lemma CommitWrites(cfg: Config, d: Disk, d1: Disk, op: Op, vault: Workspace, entry: AuditEntry, stamp: Stamp)
    requires Verified(d.ledger, cfg.deviceKey) && d1.ledger == d.ledger && entry.action == ActionOf(op)
    ensures var plan := PlanCommit(cfg, d1, vault, [entry], stamp);
      plan.outcome.Done? && plan.writes == [SaveLedger(Signed(cfg, d, [entry], stamp).ledger), PutVault(vault)]
    ensures Announces(d, op, Signed(cfg, d, [entry], stamp).ledger)
  {
    FaultFreeIffVerified(d.ledger, Some(cfg.deviceKey));
    AppendAllExtends(d.ledger, [entry], stamp.firstEventId, stamp.at, cfg.deviceKey);
    assert Signed(cfg, d, [entry], stamp).ledger[|d.ledger| + 0].body.content == entry;
  }

  lemma PlainWrites(cfg: Config, d: Disk, op: Op) returns (rest: seq<Write>)
    requires Verified(d.ledger, cfg.deviceKey) && CommitOnly(op)
    ensures PlanOf(cfg, d, op).writes == [] + rest && Commits(d, op, [], rest)
    ensures PlanOf(cfg, d, op).outcome.Failed? ==> rest == []
  {
    FaultFreeIffVerified(d.ledger, Some(cfg.deviceKey));
    CommitShape(cfg, d, op);
    rest := PlanOf(cfg, d, op).writes;
    if PlanOf(cfg, d, op).outcome.Done? {
      CommitEntryIsOwn(d, op);
      CommitWrites(cfg, d, d, op, NextVault(d, op), CommitEntry(d, op), op.stamp);
    }
  }

  lemma RevokeFacts(key: Key, d: Disk, document: Id, revoking: set<Id>)
    requires Inv(key, d, revoking)
    ensures Verified(d.ledger, key)
    ensures StatusOf(d.vault, document) == Some(ApprovedPendingDelivery) ==>
      LastOutbox(d.vault.approvals, document).Some? && LastOutbox(d.vault.approvals, document).value.emlOf == document
  {
    if StatusOf(d.vault, document) == Some(ApprovedPendingDelivery) {
      RevokeFindsItsReceipt(key, d, revoking, document);
    }
  }

  lemma RevokeWrites(cfg: Config, d: Disk, op: Op) returns (before: seq<Write>, rest: seq<Write>)
    requires Verified(d.ledger, cfg.deviceKey) && op.RevokeDelivery?
    requires StatusOf(d.vault, op.document) == Some(ApprovedPendingDelivery)
    requires LastOutbox(d.vault.approvals, op.document).Some?
    requires LastOutbox(d.vault.approvals, op.document).value.emlOf == op.document
    ensures PlanOf(cfg, d, op).writes == before + rest && Commits(d, op, before, rest)
    ensures PlanOf(cfg, d, op).outcome.Done?
  {
    RevokeShape(cfg, d, op.document, op.stamp);
    before := if op.document in d.outbox then [RemoveEml(op.document)] else [];
    var d1, entry := Apply(d, RemoveEml(op.document)), RevokedEntry(d.vault, op.document);
    CommitWrites(cfg, d, d1, op, RevokedVault(d.vault, op.document), entry, op.stamp);
    rest := PlanCommit(cfg, d1, RevokedVault(d.vault, op.document), [entry], op.stamp).writes;
  }

  lemma ApproveWrites(cfg: Config, d: Disk, op: Op, revoking: set<Id>) returns (before: seq<Write>, rest: seq<Write>)
    requires Inv(cfg.deviceKey, d, revoking) && op.Approve?
    ensures PlanOf(cfg, d, op).writes == before + rest && Commits(d, op, before, rest)
    ensures PlanOf(cfg, d, op).outcome.Failed? ==> rest == []
  {
    if PlanOf(cfg, d, op).outcome.Failed? {
      FailedApproveSignsNothing(cfg, d, op, revoking);
      before, rest := PlanOf(cfg, d, op).writes, [];
    } else {
      ApproveGuard(cfg, d, op);
      before, rest := SendWrites(cfg, d, FindApproval(d.vault.approvals, op.approval).value, op.kernel, op.date,
                                 op.stamp, revoking);
    }
  }

  /** Every operation whose event can be torn writes files, commits, and writes files. */
  lemma TearableWrites(cfg: Config, d: Disk, op: Op, revoking: set<Id>) returns (before: seq<Write>, rest: seq<Write>)
    requires Inv(cfg.deviceKey, d, revoking) && CanTear(ActionOf(op))
    ensures PlanOf(cfg, d, op).writes == before + rest && Commits(d, op, before, rest)
    ensures PlanOf(cfg, d, op).outcome.Failed? ==> rest == []
  {
    if op.Approve? {
      before, rest := ApproveWrites(cfg, d, op, revoking);
    } else if op.RevokeDelivery? {
      RevokeFacts(cfg.deviceKey, d, op.document, revoking);
      if StatusOf(d.vault, op.document) == Some(ApprovedPendingDelivery) {
        before, rest := RevokeWrites(cfg, d, op);
      } else {
        NothingToRevoke(cfg, d, op);
        before, rest := [], [];
      }
    } else {
      before := [];
      rest := PlainWrites(cfg, d, op);
    }
  }

  // ----------------------------------------------------------- what a cut leaves

  /** A crash inside the commit leaves the longer chain on the old workspace. */
  lemma InCommitLeaves(d: Disk, op: Op, before: seq<Write>, rest: seq<Write>, k: nat)
    requires Commits(d, op, before, rest) && InCommit(before + rest, k)
    ensures var e := ApplyAll(d, (before + rest)[..k]);
      rest != [] && e.vault == d.vault && Announces(d, op, e.ledger)
  {
    assert forall i | 0 <= i < |before| :: (before + rest)[i] == before[i];
    CutInCommit(before, rest, k);
    SavedAfterFiles(d, before, rest[0].ledger);
  }

  /** A crash outside it leaves the chain and the workspace as they were, or as they are after the whole operation. */
  lemma OutsideCommitLeaves(d: Disk, op: Op, before: seq<Write>, rest: seq<Write>, k: nat)
    requires Commits(d, op, before, rest) && k <= |before + rest| && !InCommit(before + rest, k)
    ensures var e, done := ApplyAll(d, (before + rest)[..k]), ApplyAll(d, before + rest);
      (e.ledger == d.ledger && e.vault == d.vault) || (e.ledger == done.ledger && e.vault == done.vault)
  {
    var writes := before + rest;
    if k <= |before| {
      assert writes[..k] == before[..k];
      assert FilesOnly(before[..k]);
      FilesKeepState(d, before[..k]);
    } else {
      assert writes[|before|] == rest[0];
      if k == |before| + 1 {
        assert forall i | 0 <= i < |before| :: writes[i] == before[i];
        assert InCommit(writes, k);
      } else {
        assert writes == writes[..k] + writes[k..];
        assert forall i | k <= i < |writes| :: writes[i] == rest[2..][i - |before| - 2];
        assert FilesOnly(writes[k..]);
        ApplyAllConcat(d, writes[..k], writes[k..]);
        FilesKeepState(ApplyAll(d, writes[..k]), writes[k..]);
      }
    }
  }

  // ------------------------------------------------------------- what is reported

  /** Inside the commit the state that the announced event stands for is missing. */
  lemma AnnouncedIsTorn(cfg: Config, d: Disk, op: Op, x: AuditEntry)
    requires Lifecycle(d.vault) && Fresh(d, op) && CanTear(ActionOf(op)) && PlanOf(cfg, d, op).outcome.Done?
    requires x.action == ActionOf(op) && x.resource == ResourceOf(d, op)
    ensures Torn(x, d.vault)
  {
    if op.Approve? {
      ApproveGuard(cfg, d, op);
      PendingInStep(d.vault, FindApproval(d.vault.approvals, op.approval).value);
    } else if op.RevokeDelivery? {
      DoneRevokeGuard(cfg, d, op);
    } else {
      DoneGuards(cfg, d, op);
    }
  }

  lemma TornTailIsReported(key: Key, d: Disk, op: Op, e: Disk, revoking: set<Id>)
    requires Inv(key, e, revoking) && Signs(d, op, e.ledger) && Announces(d, op, e.ledger)
    requires forall x: AuditEntry | x.action == ActionOf(op) && x.resource == ResourceOf(d, op) :: Torn(x, e.vault)
    ensures Findings(key, e) == [Finding(Warning, Some(ResourceOf(d, op)), TornTail)]
  {
    var i, last := |d.ledger|, |e.ledger| - 1;
    assert EntryOf(d, op, e.ledger[i].body.content) && EntryOf(d, op, e.ledger[last].body.content);
    TrailAfter(d, op, e.ledger);
    assert TrailStart(e.ledger, |e.ledger|) <= i && Torn(e.ledger[i].body.content, e.vault);
    FaultFreeIffVerified(e.ledger, Some(key));
    CriticalFindingsMeaning(e.ledger, e.vault);
  }

  /**
    Whatever was torn before, an operation that is interrupted inside its commit
    is reported, by one warning on its own resource and nothing else.
  */
  lemma InterruptionIsReported(cfg: Config, d: Disk, op: Op, k: nat, revoking: set<Id>)
    requires Inv(cfg.deviceKey, d, revoking) && Fresh(d, op)
    requires CanTear(ActionOf(op)) && InCommit(PlanOf(cfg, d, op).writes, k)
    ensures Findings(cfg.deviceKey, Interrupted(cfg, d, op, k))
      == [Finding(Warning, Some(ResourceOf(d, op)), TornTail)]
  {
    var e := Interrupted(cfg, d, op, k);
    var before, rest := TearableWrites(cfg, d, op, revoking);
    CutIsTake(before + rest, k);
    InCommitLeaves(d, op, before, rest, k);
    InterruptedSafe(cfg, d, op, k, revoking);
    InterruptedLater(cfg, d, op, k, revoking);
    forall x: AuditEntry | x.action == ActionOf(op) && x.resource == ResourceOf(d, op) ensures Torn(x, e.vault) {
      AnnouncedIsTorn(cfg, d, op, x);
    }
    TornTailIsReported(cfg.deviceKey, d, op, e, Touch(revoking, op));
  }

  lemma CleanIsNotBlocked(key: Key, d: Disk, op: Op)
    requires Findings(key, d) == []
    ensures !Blocked(d, op)
  {
    FindingsMeaning(key, d);
  }

  /** The report depends on the chain and the workspace only. */
  lemma SameStateSameFindings(key: Key, d: Disk, e: Disk)
    requires e.ledger == d.ledger && e.vault == d.vault
    ensures Findings(key, e) == Findings(key, d)
  {
  }

  lemma CompletionIsClean(cfg: Config, d: Disk, op: Op, revoking: set<Id>)
    requires Inv(cfg.deviceKey, d, revoking) && Fresh(d, op) && Findings(cfg.deviceKey, d) == []
    ensures Findings(cfg.deviceKey, Completed(cfg, d, op)) == []
  {
    if PlanOf(cfg, d, op).outcome.Done? {
      CleanIsNotBlocked(cfg.deviceKey, d, op);
      CompletedIsCleanExactly(cfg, d, op, revoking);
    } else {
      FailureKeepsState(cfg, d, op, revoking);
      SameStateSameFindings(cfg.deviceKey, d, Completed(cfg, d, op));
    }
  }

  lemma OutsideCommitIsClean(cfg: Config, d: Disk, op: Op, k: nat, revoking: set<Id>)
    requires Inv(cfg.deviceKey, d, revoking) && Fresh(d, op) && Findings(cfg.deviceKey, d) == []
    requires CanTear(ActionOf(op)) && !InCommit(PlanOf(cfg, d, op).writes, k)
    ensures Findings(cfg.deviceKey, Interrupted(cfg, d, op, k)) == []
  {
    var writes := PlanOf(cfg, d, op).writes;
    CompletionIsClean(cfg, d, op, revoking);
    if k <= |writes| {
      var before, rest := TearableWrites(cfg, d, op, revoking);
      CutIsTake(before + rest, k);
      OutsideCommitLeaves(d, op, before, rest, k);
      var e := Interrupted(cfg, d, op, k);
      if e.ledger == d.ledger && e.vault == d.vault {
        SameStateSameFindings(cfg.deviceKey, d, e);
      } else {
        SameStateSameFindings(cfg.deviceKey, Completed(cfg, d, op), e);
      }
    }
  }

  /** An operation whose event cannot be torn leaves nothing to report, wherever it is interrupted. */
  lemma UntearableIsClean(cfg: Config, d: Disk, op: Op, k: nat, revoking: set<Id>)
    requires Inv(cfg.deviceKey, d, revoking) && Fresh(d, op) && Findings(cfg.deviceKey, d) == []
    requires !CanTear(ActionOf(op))
    ensures Findings(cfg.deviceKey, Interrupted(cfg, d, op, k)) == []
  {
    var e := Interrupted(cfg, d, op, k);
    InterruptedSafe(cfg, d, op, k, revoking);
    InterruptedLater(cfg, d, op, k, revoking);
    CleanTearsNothing(cfg.deviceKey, d, ActionOf(op));
    InterruptionTearsOnlyItself(d, op, e);
    FindingsMeaning(cfg.deviceKey, e);
  }

  /**
    From a clean self-audit, whatever operation was interrupted and wherever:
    the audit has exactly one warning, on the resource of the operation, when
    the crash fell inside the commit of a new customer, a grant, a revocation or
    a confirmation, and nothing to report otherwise.
  */
  lemma InterruptionIsReportedExactly(cfg: Config, d: Disk, op: Op, k: nat, revoking: set<Id>)
    requires Inv(cfg.deviceKey, d, revoking) && Fresh(d, op) && Findings(cfg.deviceKey, d) == []
    ensures Findings(cfg.deviceKey, Interrupted(cfg, d, op, k)) ==
      if (op.AddCustomer? || op.Approve? || op.RevokeDelivery? || op.ConfirmDelivery?)
         && InCommit(PlanOf(cfg, d, op).writes, k)
      then [Finding(Warning, Some(ResourceOf(d, op)), TornTail)] else []
  {
    if !CanTear(ActionOf(op)) {
      UntearableIsClean(cfg, d, op, k, revoking);
    } else if InCommit(PlanOf(cfg, d, op).writes, k) {
      InterruptionIsReported(cfg, d, op, k, revoking);
    } else {
      OutsideCommitIsClean(cfg, d, op, k, revoking);
    }
  }
}
