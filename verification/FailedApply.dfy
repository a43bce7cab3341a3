/** What a failed apply leaves behind. A revision that fails validation or its dry
    run leaves the active revision unchanged, here and on the panel; after a later
    failure that need not be so, and this is exactly when it is. */
module FailedApply {
  import opened Text
  import opened Json
  import opened ConfigBundle
  import opened AgentCheck
  import opened Agent
  import opened CrashConsistency
  import opened Panel
  import opened PanelTheorems
  import opened Protocol
  import opened Draining

  /** The runtime supervisor lets the revision through. */
  predicate Prepares(mode: ProcessMode, runner: RunnerOutcome) {
    !runner.Cancelled? && (mode.Disabled? || runner.RunnerStarted?)
  }

  /** The apply up to the end of the file switch. */
  function UpToSwitch(id: Identity, p: Progress, rev: Revision, faults: Faults): Progress {
    Activate(id, Stage(id, p, rev, faults), rev, faults)
  }

  function AfterDryRun(id: Identity, a: Agent, disk: Disk, rev: Revision, out: Outside): Progress {
    Progress(Stored(a, rev), disk, DryRun(id, rev, out.faults(OnCandidate), out.dryRunFailure))
  }

  lemma SwitchKeepsMode(id: Identity, before: Disk, p: Progress, rev: Revision, faults: Faults)
    requires DiskOk(id.Dir(), before) && p.disk == before
    ensures
      var q := UpToSwitch(id, p, rev, faults);
      && q.agent.status.processMode == p.agent.status.processMode
      && q.agent.status.activeRevision == p.agent.status.activeRevision
      && (q.halt.Running? ==> Switched(q.disk, rev))
  {
    var staged := Stage(id, p, rev, faults);
    StageAttempts(id, before, p, rev, faults);
    if Attempting(id.Dir(), before, staged, rev, 2) {
      ActivateAttempts(id, before, staged, rev, faults);
      var q := Activate(id, staged, rev, faults);
      if q.halt.Running? { ReachedIsSwitched(id.Dir(), before, q, rev); }
    } else {
      StoppedActivates(id, staged, rev, faults);
    }
  }

  lemma FinishActive(id: Identity, p: Progress, rev: Revision, out: Outside)
    requires p.halt.Running? && Finish(id, p, rev, out).halt.Stopped?
    ensures Finish(id, p, rev, out).agent.status.activeRevision ==
      if Prepares(p.agent.status.processMode, out.runner) then rev.revisionNumber else p.agent.status.activeRevision
  {
    var (t, ok) := PrepareActiveConfig(p.agent.status, out.runner, out.now);
    assert ok == Prepares(p.agent.status.processMode, out.runner);
    if ok {
      var ready := p.(agent := Succeeded(id, p.agent, rev, t.value, out.now));
      SucceededStatus(id, p.agent, rev, t.value, out.now);
      FailureEventKeeps(Persist(ready, out.faults), "apply_failure", rev, out.now);
      PersistAgent(ready, out.faults);
    }
  }

  lemma PersistAgent(p: Progress, faults: Faults)
    ensures Persist(p, faults).agent == p.agent
  {
  }

  lemma FinishGrows(id: Identity, before: Disk, p: Progress, rev: Revision, out: Outside)
    requires Attempting(id.Dir(), before, p, rev, 5) && Switched(p.disk, rev)
    ensures Switched(Finish(id, p, rev, out).disk, rev)
  {
    FinishAttempts(id, before, p, rev, out);
  }

  // ---- when the switch goes through ----

  /** The operations between the dry run and the preparation of the process. */
  predicate InSwitch(point: Point) {
    point in {
      OnRevisionDir, OnStagedDir, OnRevisionConfig, OnRevisionMetadata, OnStagedConfig, OnStagedMetadata,
      OnActiveDir, OnStagedConfigRead, OnStagedMetadataRead, OnActiveMetadata, OnActiveConfig, OnState}
  }

  predicate SwitchFine(faults: Faults) {
    forall point | InSwitch(point) :: faults(point).Fine?
  }

  predicate StageFine(faults: Faults) {
    && faults(OnRevisionDir).Fine? && faults(OnStagedDir).Fine? && faults(OnRevisionConfig).Fine?
    && faults(OnRevisionMetadata).Fine? && faults(OnStagedConfig).Fine? && faults(OnStagedMetadata).Fine?
  }

  predicate ActivateFine(faults: Faults) {
    && faults(OnActiveDir).Fine? && faults(OnStagedConfigRead).Fine? && faults(OnStagedMetadataRead).Fine?
    && faults(OnActiveMetadata).Fine? && faults(OnActiveConfig).Fine? && faults(OnState).Fine?
  }

  lemma SwitchHasTwoHalves(faults: Faults)
    ensures SwitchFine(faults) <==> StageFine(faults) && ActivateFine(faults)
  {
    if SwitchFine(faults) {
      assert InSwitch(OnRevisionDir) && InSwitch(OnStagedDir) && InSwitch(OnRevisionConfig);
      assert InSwitch(OnRevisionMetadata) && InSwitch(OnStagedConfig) && InSwitch(OnStagedMetadata);
      assert InSwitch(OnActiveDir) && InSwitch(OnStagedConfigRead) && InSwitch(OnStagedMetadataRead);
      assert InSwitch(OnActiveMetadata) && InSwitch(OnActiveConfig) && InSwitch(OnState);
    }
  }

  /** The dry run is not wanted, or it is carried out and passes. */
  predicate DryRunPasses(id: Identity, out: Outside) {
    id.DryRuns() ==> out.faults(OnCandidate).Fine? && out.dryRunFailure.None?
  }

  /** What has to hold before the call for the files to be switched. */
  predicate SwitchGoesThrough(id: Identity, out: Outside) {
    id.Dir() != "" && SwitchFine(out.faults) && DryRunPasses(id, out)
  }

  lemma StageIff(id: Identity, p: Progress, rev: Revision, faults: Faults)
    requires p.halt.Running? && GetObj(BundleFields(rev), Config).Some?
    ensures Stage(id, p, rev, faults).halt.Running? <==> id.Dir() != "" && StageFine(faults)
  {
  }

  lemma ActivateIff(id: Identity, p: Progress, rev: Revision, faults: Faults)
    requires p.halt.Running?
    requires StagedConfigFile in p.disk.files && p.disk.files[StagedConfigFile].Document?
    requires StagedMetadataFile in p.disk.files && p.disk.files[StagedMetadataFile].Document?
    ensures Activate(id, p, rev, faults).halt.Running? <==> ActivateFine(faults)
  {
  }

  lemma SwitchRunsIff(id: Identity, before: Disk, p: Progress, rev: Revision, faults: Faults)
    requires p.halt.Running? && p.disk == before && DiskOk(id.Dir(), before)
    requires GetObj(BundleFields(rev), Config).Some?
    ensures UpToSwitch(id, p, rev, faults).halt.Running? <==> id.Dir() != "" && SwitchFine(faults)
  {
    var staged := Stage(id, p, rev, faults);
    StageIff(id, p, rev, faults);
    SwitchHasTwoHalves(faults);
    if staged.halt.Running? {
      StageAttempts(id, before, p, rev, faults);
      StagedFilesAreJson(id.Dir(), before, staged, rev);
      ActivateIff(id, staged, rev, faults);
    } else {
      StoppedActivates(id, staged, rev, faults);
    }
  }

  lemma SwitchIff(c: Crypto, id: Identity, a: Agent, disk: Disk, rev: Revision, out: Outside)
    requires DiskOk(id.Dir(), disk) && CheckRevision(c, id.nodeId, rev).None?
    ensures UpToSwitch(id, AfterDryRun(id, a, disk, rev, out), rev, out.faults).halt.Running? <==>
      SwitchGoesThrough(id, out)
  {
    AcceptedHasConfig(c, id, rev);
    ConfigSwitchIff(id, AfterDryRun(id, a, disk, rev, out), disk, rev, out);
  }

  lemma ConfigSwitchIff(id: Identity, p: Progress, disk: Disk, rev: Revision, out: Outside)
    requires DiskOk(id.Dir(), disk) && GetObj(BundleFields(rev), Config).Some? && p.disk == disk
    requires p.halt == DryRun(id, rev, out.faults(OnCandidate), out.dryRunFailure)
    ensures UpToSwitch(id, p, rev, out.faults).halt.Running? <==> SwitchGoesThrough(id, out)
  {
    DryRunIff(id, rev, out);
    if p.halt.Running? {
      SwitchRunsIff(id, disk, p, rev, out.faults);
    } else {
      StoppedSwitches(id, p, rev, out.faults);
    }
  }

  lemma DryRunIff(id: Identity, rev: Revision, out: Outside)
    requires GetObj(BundleFields(rev), Config).Some?
    ensures DryRun(id, rev, out.faults(OnCandidate), out.dryRunFailure).Running? <==>
      (id.DryRuns() ==> id.Dir() != "") && DryRunPasses(id, out)
  {
  }

  /** A failed apply leaves the agent at its active revision exactly when the agent
      refuses the revision, something up to the file switch goes wrong or the runtime
      does not prepare it. Otherwise only persisting can have failed, and the agent is
      at the new revision. */
  lemma FailedApplyKeepsActiveUnless(
    c: Crypto, id: Identity, a: Agent, disk: Disk, rev: Revision, out: Outside)
    requires DiskOk(id.Dir(), disk) && Apply(c, id, a, disk, rev, out).halt.Stopped?
    ensures Apply(c, id, a, disk, rev, out).agent.status.activeRevision ==
      if CheckRevision(c, id.nodeId, rev).None? && SwitchGoesThrough(id, out) && Prepares(a.status.processMode, out.runner)
      then rev.revisionNumber else a.status.activeRevision
  {
    if CheckRevision(c, id.nodeId, rev).None? {
      var p := AfterDryRun(id, a, disk, rev, out);
      SwitchKeepsMode(id, disk, p, rev, out.faults);
      SwitchIff(c, id, a, disk, rev, out);
      CheckedActive(id, p, rev, out);
    }
  }

  /** What makes the last step of an apply fail. */
  predicate PersistFails(faults: Faults) {
    faults(OnStateRead).Fails? || (faults(OnStateRead).Fine? && faults(OnStateAgain).Fails?)
  }

  /** From the inputs alone: the apply fails with the agent at a new revision exactly
      when the revision is accepted, switched and prepared, and persisting fails. */
  lemma FailsAtNewRevisionIff(c: Crypto, id: Identity, a: Agent, disk: Disk, rev: Revision, out: Outside)
    requires DiskOk(id.Dir(), disk) && a.status.activeRevision != rev.revisionNumber
    ensures
      var q := Apply(c, id, a, disk, rev, out);
      q.halt.Stopped? && q.agent.status.activeRevision == rev.revisionNumber <==>
        && CheckRevision(c, id.nodeId, rev).None? && SwitchGoesThrough(id, out)
        && Prepares(a.status.processMode, out.runner)
        && !out.faults(OnPrepare).Crashes? && PersistFails(out.faults)
  {
    var q := Apply(c, id, a, disk, rev, out);
    if q.halt.Stopped? { FailedApplyKeepsActiveUnless(c, id, a, disk, rev, out); }
    if CheckRevision(c, id.nodeId, rev).None? && SwitchGoesThrough(id, out) && Prepares(a.status.processMode, out.runner) {
      var p := AfterDryRun(id, a, disk, rev, out);
      SwitchIff(c, id, a, disk, rev, out);
      SwitchKeepsMode(id, disk, p, rev, out.faults);
      SwitchAttempted(id, disk, p, rev, out.faults);
      var switched := UpToSwitch(id, p, rev, out.faults);
      StateIsText(id.Dir(), switched.disk);
      FinishStopsIff(id, switched, rev, out);
    }
  }

  lemma FinishStopsIff(id: Identity, p: Progress, rev: Revision, out: Outside)
    requires p.halt.Running? && Prepares(p.agent.status.processMode, out.runner)
    requires !ContentOf(p.disk, StateFile).Garbled?
    ensures Finish(id, p, rev, out).halt.Stopped? <==> !out.faults(OnPrepare).Crashes? && PersistFails(out.faults)
  {
  }

  lemma CheckedActive(id: Identity, p: Progress, rev: Revision, out: Outside)
    requires ApplyChecked(id, p, rev, out).halt.Stopped?
    requires
      var q := UpToSwitch(id, p, rev, out.faults);
      && q.agent.status.processMode == p.agent.status.processMode
      && q.agent.status.activeRevision == p.agent.status.activeRevision
    ensures
      var q := UpToSwitch(id, p, rev, out.faults);
      ApplyChecked(id, p, rev, out).agent.status.activeRevision ==
        if q.halt.Running? && Prepares(p.agent.status.processMode, out.runner)
        then rev.revisionNumber else p.agent.status.activeRevision
  {
    var q := UpToSwitch(id, p, rev, out.faults);
    if p.halt.Stopped? {
      FailureEventKeeps(p, "dry_run_failure", rev, out.now);
      StoppedSwitches(id, p, rev, out.faults);
    } else if q.halt.Stopped? {
      FailureEventKeeps(q, "apply_failure", rev, out.now);
    } else if q.halt.Running? {
      FinishActive(id, q, rev, out);
    }
  }

  lemma StoppedSwitches(id: Identity, p: Progress, rev: Revision, faults: Faults)
    requires !p.halt.Running?
    ensures !UpToSwitch(id, p, rev, faults).halt.Running?
  {
    StoppedActivates(id, p, rev, faults);
  }

  /** Every operation works but the very last write. */
  predicate OnlyLastWriteFails(point: Point, fault: Fault) {
    fault == if point.OnStateAgain? then Fails else Fine
  }

  lemma StagedFilesAreJson(dir: string, before: Disk, p: Progress, rev: Revision)
    requires p.halt.Running? && Attempting(dir, before, p, rev, 2) && GetObj(BundleFields(rev), Config).Some?
    ensures StagedConfigFile in p.disk.files && p.disk.files[StagedConfigFile].Document?
    ensures StagedMetadataFile in p.disk.files && p.disk.files[StagedMetadataFile].Document?
  {
    ReachedContent(dir, before, p, rev, StagedConfigFile);
    ReachedContent(dir, before, p, rev, StagedMetadataFile);
  }

  lemma FinishFailsLast(id: Identity, p: Progress, rev: Revision, out: Outside)
    requires p.halt.Running? && forall point :: OnlyLastWriteFails(point, out.faults(point))
    requires Prepares(p.agent.status.processMode, out.runner) && !ContentOf(p.disk, StateFile).Garbled?
    ensures Finish(id, p, rev, out).halt == Stopped(ArtifactWrite)
  {
    assert out.faults(OnPrepare).Fine? && out.faults(OnStateRead).Fine? && out.faults(OnStateAgain).Fails?;
  }

  lemma StateIsText(dir: string, disk: Disk)
    requires DiskOk(dir, disk)
    ensures !ContentOf(disk, StateFile).Garbled?
  {
    if StateFile in disk.files { SoundAt(WrittenIn(dir), disk, StateFile); }
  }

  /** A failed report does not mean that the active revision is the old one. For every
      revision the agent accepts and whose dry run, if any, passes, let only the last
      write fail: the apply has failed, and the agent is at the new revision, in memory
      and on disk. */
  lemma FailedApplyCanSwitch(c: Crypto, id: Identity, a: Agent, disk: Disk, rev: Revision, out: Outside)
    requires DiskOk(id.Dir(), disk) && id.Dir() != "" && CheckRevision(c, id.nodeId, rev).None?
    requires id.DryRuns() ==> out.dryRunFailure.None?
    requires Prepares(a.status.processMode, out.runner)
    requires forall point :: OnlyLastWriteFails(point, out.faults(point))
    ensures
      var q := Apply(c, id, a, disk, rev, out);
      q.halt == Stopped(ArtifactWrite) && q.agent.status.activeRevision == rev.revisionNumber && Switched(q.disk, rev)
  {
    var p := AfterDryRun(id, a, disk, rev, out);
    OnlyLastGoesThrough(id, out);
    SwitchIff(c, id, a, disk, rev, out);
    ChecksOut(id, a, disk, rev, out);
    SwitchedFailsLast(id, disk, p, rev, out);
  }

  lemma OnlyLastGoesThrough(id: Identity, out: Outside)
    requires id.Dir() != "" && (id.DryRuns() ==> out.dryRunFailure.None?)
    requires forall point :: OnlyLastWriteFails(point, out.faults(point))
    ensures SwitchGoesThrough(id, out)
  {
    assert OnlyLastWriteFails(OnCandidate, out.faults(OnCandidate));
    forall point | InSwitch(point) ensures out.faults(point).Fine? {
      assert OnlyLastWriteFails(point, out.faults(point));
    }
  }

  /** A switch that went through was not stopped by the dry run. */
  lemma ChecksOut(id: Identity, a: Agent, disk: Disk, rev: Revision, out: Outside)
    requires UpToSwitch(id, AfterDryRun(id, a, disk, rev, out), rev, out.faults).halt.Running?
    ensures AfterDryRun(id, a, disk, rev, out).halt.Running?
    ensures AfterDryRun(id, a, disk, rev, out).agent.status.processMode == a.status.processMode
  {
    if !AfterDryRun(id, a, disk, rev, out).halt.Running? {
      StoppedSwitches(id, AfterDryRun(id, a, disk, rev, out), rev, out.faults);
    }
  }

  lemma SwitchedFailsLast(id: Identity, before: Disk, p: Progress, rev: Revision, out: Outside)
    requires DiskOk(id.Dir(), before) && p.disk == before && p.halt.Running?
    requires UpToSwitch(id, p, rev, out.faults).halt.Running? && Prepares(p.agent.status.processMode, out.runner)
    requires forall point :: OnlyLastWriteFails(point, out.faults(point))
    ensures
      var q := ApplyChecked(id, p, rev, out);
      q.halt == Stopped(ArtifactWrite) && q.agent.status.activeRevision == rev.revisionNumber && Switched(q.disk, rev)
  {
    var q := UpToSwitch(id, p, rev, out.faults);
    SwitchKeepsMode(id, before, p, rev, out.faults);
    SwitchAttempted(id, before, p, rev, out.faults);
    StateIsText(id.Dir(), q.disk);
    FinishFailsLast(id, q, rev, out);
    FinishGrows(id, before, q, rev, out);
    FinishActive(id, q, rev, out);
  }

  lemma AcceptedHasConfig(c: Crypto, id: Identity, rev: Revision)
    requires CheckRevision(c, id.nodeId, rev).None?
    ensures GetObj(BundleFields(rev), Config).Some?
  {
  }

  lemma SwitchAttempted(id: Identity, before: Disk, p: Progress, rev: Revision, faults: Faults)
    requires DiskOk(id.Dir(), before) && p.disk == before && UpToSwitch(id, p, rev, faults).halt.Running?
    ensures Attempting(id.Dir(), before, UpToSwitch(id, p, rev, faults), rev, 5)
  {
    var staged := Stage(id, p, rev, faults);
    StageAttempts(id, before, p, rev, faults);
    if Attempting(id.Dir(), before, staged, rev, 2) {
      ActivateAttempts(id, before, staged, rev, faults);
    } else {
      StoppedActivates(id, staged, rev, faults);
    }
  }

  // ---- failed validation, end to end ----

  /** The agent refuses the revision, or its dry run fails. */
  predicate Refused(c: Crypto, id: Identity, rev: Revision, out: Outside) {
    CheckRevision(c, id.nodeId, rev).Some? || DryRun(id, rev, out.faults(OnCandidate), out.dryRunFailure).Stopped?
  }

  predicate SameActive(s: AgentStatus, now: AgentStatus) {
    && now.activeRevision == s.activeRevision && now.lastAppliedRevision == s.lastAppliedRevision
    && now.configPath == s.configPath && now.metadataPath == s.metadataPath
  }

  lemma RefusedApply(c: Crypto, id: Identity, a: Agent, disk: Disk, rev: Revision, out: Outside)
    requires Refused(c, id, rev, out)
    ensures
      var p := Apply(c, id, a, disk, rev, out);
      p.halt.Stopped? && p.disk == disk && SameActive(a.status, p.agent.status)
  {
  }

  lemma RefusedPoll(c: Crypto, id: Identity, a: Agent, disk: Disk, rev: Revision, out: Outside, at: Time)
    requires Refused(c, id, rev, out)
    ensures
      var (p, report) := Poll(c, id, a, disk, rev, out, at);
      && p.halt.Stopped? && p.disk == disk && SameActive(a.status, p.agent.status)
      && report == Some(ReportMessage(rev.id, false, ErrorMessage(p.halt.error)))
  {
    RefusedApply(c, id, a, disk, rev, out);
    OutcomeKeepsActive(id, Apply(c, id, a, disk, rev, out), at);
  }

  lemma OutcomeKeepsActive(id: Identity, p: Progress, at: Time)
    ensures SameActive(p.agent.status, PolledStatus(id, p, at))
  {
  }

  /** A delivered round with a revision that fails validation or its dry run marks
      exactly that row as failed. No file, no node row and no active revision changes. */
  lemma RefusedRoundKeepsActive(cfg: PanelConfig, id: Identity, w: World, out: Outside, at: Time, i: nat)
    requires QueueOk(cfg, id, w.db) && w.life.alive && LatestPending(w.db.revisions, id.nodeId) == Some(i)
    requires Refused(cfg.crypto, id, Fetched(w.db.revisions[i]), out)
    ensures
      var now := Round(cfg, id, w, out, at);
      && now.life.alive && now.life.disk == w.life.disk
      && SameActive(w.life.agent.status, now.life.agent.status)
      && Handled(w.db, now.db, i) && now.db.revisions[i].status.RowFailed? && now.db.nodes == w.db.nodes
  {
    var row := w.db.revisions[i];
    RefusedPoll(cfg.crypto, id, w.life.agent, w.life.disk, Fetched(row), out, at);
    var report := Poll(cfg.crypto, id, w.life.agent, w.life.disk, Fetched(row), out, at).1.value;
    FailedReport(cfg, id, w.db, i, report);
    RoundIs(cfg, id, w, out, at, row, report);
  }

  lemma FailedReport(cfg: PanelConfig, id: Identity, db: Db, i: nat, m: ReportMessage)
    requires QueueOk(cfg, id, db) && i < |db.revisions| && PendingFor(db.revisions[i], id.nodeId)
    requires m.revisionId == db.revisions[i].id && !m.applied
    ensures
      var now := Reported(cfg, id, db, m);
      Handled(db, now, i) && now.revisions[i].status.RowFailed? && now.nodes == db.nodes
  {
    IdFindsRow(db.revisions, id.nodeId, i);
  }
}
