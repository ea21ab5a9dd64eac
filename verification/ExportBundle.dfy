/** The export of `reporting.rs` and its offline verification in `verify.rs`. */
module ExportBundle {
  import opened Wrappers
  import opened AuditLedger
  import opened WorkspaceTypes
  import opened WorkspaceOps
  import opened WorkspaceRuns

  const EXPORT_FORMAT := "sovereign-founder-os-export"

  /** A device id is derived from its public key; a bundle may also hold any other text. */
  datatype DeviceId = DeviceOf(key: Key) | OtherDevice(text: string)

  /** The `audit_events` field of a bundle. */
  datatype AuditField = NoEvents | Unreadable | Events(events: Ledger)

  datatype Bundle = Bundle(format: string, deviceId: DeviceId, workspace: Workspace, chainVerified: bool, audit: AuditField)

  datatype Verification = Verification(formatOk: bool, identityBound: bool, chainVerified: bool, events: nat, ok: bool)

  datatype VerifyError = EventsMalformed

  predicate UniformKey(events: Ledger, key: Key) { forall e <- events :: e.body.deviceKey == key }

  function VerifyExport(bundle: Bundle): Result<Verification, VerifyError> {
    if bundle.audit.Unreadable? then Err(EventsMalformed)
    else
      var formatOk := bundle.format == EXPORT_FORMAT;
      var events := if bundle.audit.NoEvents? then [] else bundle.audit.events;
      if events == [] then Ok(Verification(formatOk, false, true, 0, formatOk))
      else
        var signingKey := events[0].body.deviceKey;
        var identityBound := bundle.deviceId == DeviceOf(signingKey) && UniformKey(events, signingKey);
        var chainOk := ChainFault(events, Some(signingKey)).Pass?;
        Ok(Verification(formatOk, identityBound, chainOk, |events|, formatOk && identityBound && chainOk))
  }

  /** What `export` puts in the bundle: the events as they were before its own event. */
  function ExportOf(cfg: Config, d: Disk): Bundle {
    if ChainFault(d.ledger, Some(cfg.deviceKey)).Pass?
    then Bundle(EXPORT_FORMAT, DeviceOf(cfg.deviceKey), d.vault, true, Events(d.ledger))
    else Bundle(EXPORT_FORMAT, DeviceOf(cfg.deviceKey), d.vault, false, Events([]))
  }

  /** A bundle passes exactly when it is well formed and its whole history is one device's verified chain. */
  lemma VerifyExportMeaning(bundle: Bundle)
    ensures (VerifyExport(bundle).Ok? && VerifyExport(bundle).value.ok)
      <==> (bundle.format == EXPORT_FORMAT
            && !bundle.audit.Unreadable?
            && (bundle.audit.NoEvents? || bundle.audit.events == []
                || (bundle.deviceId.DeviceOf? && Verified(bundle.audit.events, bundle.deviceId.key))))
  {
    if bundle.audit.Events? && bundle.audit.events != [] {
      var events := bundle.audit.events;
      var key := events[0].body.deviceKey;
      FaultFreeIffVerified(events, Some(key));
      if bundle.deviceId.DeviceOf? && Verified(events, bundle.deviceId.key) {
        assert Linked(events, 0, bundle.deviceId.key);
        forall e <- events ensures e.body.deviceKey == key {
          var i :| 0 <= i < |events| && events[i] == e;
          assert Linked(events, i, bundle.deviceId.key);
        }
      }
    }
  }

  /** What each field of a verdict says; only an unreadable history has none. */
  lemma VerdictMeaning(bundle: Bundle)
    ensures VerifyExport(bundle).Err? <==> bundle.audit.Unreadable?
    ensures VerifyExport(bundle).Ok? ==>
      var events := if bundle.audit.NoEvents? then [] else bundle.audit.events;
      var verdict := VerifyExport(bundle).value;
      && (verdict.formatOk <==> bundle.format == "sovereign-founder-os-export")
      && verdict.events == |events|
      && (verdict.chainVerified <==> events == [] || Verified(events, events[0].body.deviceKey))
      && (verdict.identityBound <==>
            events != [] && forall e <- events :: bundle.deviceId == DeviceOf(e.body.deviceKey))
      && (verdict.ok <==> verdict.formatOk && verdict.chainVerified && (verdict.identityBound || events == []))
  {
    if bundle.audit.Events? && bundle.audit.events != [] {
      FaultFreeIffVerified(bundle.audit.events, Some(bundle.audit.events[0].body.deviceKey));
      assert bundle.audit.events[0] in bundle.audit.events;
    }
  }

  /** The export of every reachable store passes the offline check, and says so itself. */
  lemma ReachableExportVerifies(cfg: Config, attempts: seq<Attempt>)
    requires FreshAttempts(cfg, EMPTY_DISK, attempts)
    ensures var d := RunAttempts(cfg, EMPTY_DISK, attempts);
      var verdict := VerifyExport(ExportOf(cfg, d));
      && ExportOf(cfg, d).chainVerified && ExportOf(cfg, d).workspace == d.vault
      && ExportOf(cfg, d).audit == Events(d.ledger) && ExportOf(cfg, d).deviceId == DeviceOf(cfg.deviceKey)
      && verdict.Ok? && verdict.value.ok && verdict.value.events == |d.ledger|
  {
    var d := RunAttempts(cfg, EMPTY_DISK, attempts);
    EveryReachableStateIsSound(cfg, attempts);
    FaultFreeIffVerified(d.ledger, Some(cfg.deviceKey));
    VerifyExportMeaning(ExportOf(cfg, d));
  }

  /** A passing bundle that names the store's device and ends in its last hash holds the store's whole history. */
  lemma PassingBundleIsTheHistory(cfg: Config, d: Disk, bundle: Bundle)
    requires Verified(d.ledger, cfg.deviceKey)
    requires VerifyExport(bundle).Ok? && VerifyExport(bundle).value.ok
    requires bundle.audit.Events? && bundle.deviceId == DeviceOf(cfg.deviceKey)
    requires LastHash(bundle.audit.events) == LastHash(d.ledger)
    ensures bundle.audit.events == d.ledger
  {
    VerifyExportMeaning(bundle);
    LastHashFixesHistory(bundle.audit.events, d.ledger, cfg.deviceKey);
  }
}
