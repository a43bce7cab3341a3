/** The agent's service object over its state directory (service.go): each method
    changes the fields and files step by step and has the effect that module Agent
    gives it. */
module AgentService {
  import opened Text
  import opened Json
  import opened ConfigBundle
  import opened AgentCheck
  import opened Agent

  /** The files below the state directory; every write replaces a file atomically. */
  class StateDirectory {
    var files: map<File, Content>
    ghost var attempts: seq<Revision>
    ghost var stamps: map<File, nat>
    ghost var writes: set<(File, nat)>

    ghost function Contents(): Disk
      reads this
    {
      Disk(files, attempts, stamps, writes)
    }

    constructor ()
      ensures Contents() == EmptyDisk
    {
      files, attempts, stamps, writes := map[], [], map[], {};
    }

    ghost method BeginAttempt(rev: Revision)
      modifies this
      ensures Contents() == Begin(old(Contents()), rev) && files == old(files)
    {
      attempts := attempts + [rev];
    }

    method WriteFileAtomic(f: File, content: Content, fault: Fault) returns (halt: Halt)
      modifies this
      ensures halt == (match fault case Fine => Running case Fails => Stopped(ArtifactWrite) case Crashes => Crashed)
      ensures Contents() == if fault.Fine? then Replaced(old(Contents()), f, content) else old(Contents())
    {
      match fault
      case Fails => return Stopped(ArtifactWrite);
      case Crashes => return Crashed;
      case Fine =>
        files := files[f := content];
        stamps := stamps[f := |attempts|];
        writes := writes + {(f, |attempts|)};
        return Running;
    }

    method ReadJsonFile(f: File, fault: Fault) returns (halt: Halt, content: Content)
      ensures forall p: Progress :: p.disk == Contents() && p.halt.Running? ==> MustRead(p, fault, f) == p.(halt := halt)
      ensures content == ContentOf(Contents(), f)
    {
      content := if f in files then files[f] else NoBytes;
      match fault
      case Fails => halt := Stopped(ArtifactWrite);
      case Crashes => halt := Crashed;
      case Fine =>
        if f !in files {
          halt := Stopped(ArtifactWrite);
        } else {
          halt := if content.Document? then Running else Stopped(InvalidPayload);
        }
    }
  }

  method MakeDirectory(fault: Fault) returns (halt: Halt)
    ensures halt == (match fault case Fine => Running case Fails => Stopped(ArtifactWrite) case Crashes => Crashed)
  {
    halt := match fault case Fine => Running case Fails => Stopped(ArtifactWrite) case Crashes => Crashed;
  }

  method Collect<T>(items: seq<Json>, read: Json -> Option<T>) returns (values: seq<T>)
    ensures values == Collected(items, read)
  {
    values := [];
    for i := 0 to |items|
      invariant values == Collected(items[..i], read)
    {
      assert items[..i + 1][..i] == items[..i];
      var value := read(items[i]);
      if value.Some? {
        values := values + [value.value];
      }
    }
    assert items[..|items|] == items;
  }

  method RuntimeEventsFromState(items: seq<Json>) returns (events: seq<RuntimeEvent>)
    ensures events == LastEvents(EventsFrom(items))
  {
    events := Collect(items, EventFrom);
    events := CutTrail(events);
  }

  method CutTrail(events: seq<RuntimeEvent>) returns (trail: seq<RuntimeEvent>)
    ensures trail == LastEvents(events)
  {
    trail := events;
    if |trail| > TRAIL_LIMIT {
      trail := trail[|trail| - TRAIL_LIMIT..];
    }
  }

  class Service {
    const crypto: Crypto
    const identity: Identity
    const dir: StateDirectory
    var status: AgentStatus
    var known: map<int, Revision>
    ghost var history: seq<RuntimeEvent>

    ghost function Memory(): Agent
      reads this
    {
      Agent(status, known, history)
    }

    ghost function Now(halt: Halt): Progress
      reads this, dir
    {
      Progress(Memory(), dir.Contents(), halt)
    }

    constructor (crypto: Crypto, identity: Identity, dir: StateDirectory)
      ensures this.crypto == crypto && this.identity == identity && this.dir == dir
      ensures Memory() == Agent(InitialStatus(identity), map[], [])
    {
      this.crypto, this.identity, this.dir := crypto, identity, dir;
      status, known, history := InitialStatus(identity), map[], [];
    }

    method RestoreAll(state: Reading, metadata: Reading, read: Reader, now: Time)
      modifies this
      ensures Memory() == Opened(identity, old(Memory()), state, metadata, read, now)
    {
      if identity.Dir() != "" {
        RestoreRuntimeState(state, metadata, read, now);
      }
      status := WithIdentityModes(identity, Agent(status, map[], [])).status;
    }

    method AppendRuntimeEvent(event: RuntimeEvent, now: Time)
      modifies this
      ensures Memory() == AppendEvent(old(Memory()), event, now)
    {
      var e := Completed(status, event, now);
      status := status.(events := status.events + [e]);
      history := history + [e];
      if |status.events| > TRAIL_LIMIT {
        status := status.(events := status.events[|status.events| - TRAIL_LIMIT..]);
      }
    }

    method AppendFailureEvent(kind: string, number: int, e: AgentError, now: Time)
      modifies this
      ensures Memory() == AppendFailure(old(Memory()), kind, number, e, now)
    {
      AppendRuntimeEvent(Event(kind, FAILED, number, ErrorMessage(e)), now);
    }

    method ValidateAndStoreConfigRevision(rev: Revision) returns (refused: Option<AgentError>)
      modifies this
      ensures refused == CheckRevision(crypto, identity.nodeId, rev)
      ensures Memory() == if refused.None? then Stored(old(Memory()), rev) else old(Memory())
    {
      refused := CheckRevision(crypto, identity.nodeId, rev);
      if refused.None? {
        known := known[rev.revisionNumber := rev];
        status := status.(lastRollbackRevision := rev.rollbackTarget);
      }
    }

    method WriteStagedFiles(rev: Revision, faults: Faults) returns (halt: Halt)
      modifies dir
      ensures Now(halt) == WriteStaged(old(Now(Running)), identity.Dir(), rev, faults)
    {
      var config, metadata := ConfigContent(rev), MetadataContent(identity.Dir(), rev);
      halt := dir.WriteFileAtomic(RevisionConfigFile(rev.revisionNumber), config, faults(OnRevisionConfig));
      if !halt.Running? {
        return;
      }
      halt := dir.WriteFileAtomic(RevisionMetadataFile(rev.revisionNumber), metadata, faults(OnRevisionMetadata));
      if !halt.Running? {
        return;
      }
      halt := dir.WriteFileAtomic(StagedConfigFile, config, faults(OnStagedConfig));
      if !halt.Running? {
        return;
      }
      halt := dir.WriteFileAtomic(StagedMetadataFile, metadata, faults(OnStagedMetadata));
    }

    method StageConfigRevision(rev: Revision, faults: Faults) returns (halt: Halt)
      modifies this, dir
      ensures Now(halt) == Stage(identity, old(Now(Running)), rev, faults)
    {
      if identity.Dir() == "" {
        return Stopped(StateDirRequired);
      }
      if GetObj(BundleFields(rev), Config).None? {
        return Stopped(InvalidPayload);
      }
      dir.BeginAttempt(rev);
      halt := MakeDirectory(faults(OnRevisionDir));
      if !halt.Running? {
        return;
      }
      halt := MakeDirectory(faults(OnStagedDir));
      if !halt.Running? {
        return;
      }
      halt := WriteStagedFiles(rev, faults);
      if halt.Running? {
        status := status.(stagedRevision := rev.revisionNumber, rollbackCandidate := rev.rollbackTarget);
      }
    }

    method ActivateStagedConfigRevision(rev: Revision, faults: Faults) returns (halt: Halt)
      modifies dir
      ensures Now(halt) == Activate(identity, old(Now(Running)), rev, faults)
    {
      halt := MakeDirectory(faults(OnActiveDir));
      if !halt.Running? {
        return;
      }
      var config: Content, metadata: Content;
      halt, config := dir.ReadJsonFile(StagedConfigFile, faults(OnStagedConfigRead));
      if !halt.Running? {
        return;
      }
      halt, metadata := dir.ReadJsonFile(StagedMetadataFile, faults(OnStagedMetadataRead));
      if !halt.Running? {
        return;
      }
      halt := dir.WriteFileAtomic(ActiveMetadataFile, metadata, faults(OnActiveMetadata));
      if !halt.Running? {
        return;
      }
      halt := dir.WriteFileAtomic(ActiveConfigFile, config, faults(OnActiveConfig));
      if !halt.Running? {
        return;
      }
      halt := dir.WriteFileAtomic(StateFile, ToText(ActivationState(identity, status, rev)), faults(OnState));
    }

    method PersistRuntimeState(faults: Faults) returns (halt: Halt)
      modifies dir
      ensures Now(halt) == Persist(old(Now(Running)), faults)
    {
      halt := MakeDirectory(faults(OnStateRead));
      if !halt.Running? {
        return;
      }
      var state: Fields := map[];
      if StateFile in dir.files {
        match dir.files[StateFile]
        case Garbled => return Stopped(InvalidPayload);
        case NoBytes =>
        case Document(members) => state := FromText(members);
      }
      halt := dir.WriteFileAtomic(StateFile, ToText(WithStatus(state, status)), faults(OnStateAgain));
    }

    method AppendSuccessEvents(rev: Revision, t: Transition, now: Time)
      modifies this
      ensures Memory() == SuccessEvents(old(Memory()), rev, t, now)
    {
      if status.processMode.Local? {
        AppendRuntimeEvent(IntentEvent(rev, t), now);
      }
      AppendRuntimeEvent(SuccessEvent(rev, t), now);
    }

    method RecordSuccess(rev: Revision, t: Transition, now: Time)
      modifies this
      ensures Memory() == Succeeded(identity, old(Memory()), rev, t, now)
    {
      status := TrackPrepared(identity, TrackApplied(status, rev), rev, t);
      AppendSuccessEvents(rev, t, now);
      status := TrackValidation(status, "applied", "", now);
    }

    method FinishApply(rev: Revision, out: Outside) returns (halt: Halt)
      modifies this, dir
      ensures Now(halt) == Finish(identity, old(Now(Running)), rev, out)
    {
      if out.faults(OnPrepare).Crashes? {
        return Crashed;
      }
      var (t, ok) := PrepareActiveConfig(status, out.runner, out.now);
      if !ok {
        AppendRuntimeEvent(UnpreparedEvent(rev, t), out.now);
        return Stopped(PrepareFailed);
      }
      RecordSuccess(rev, t.value, out.now);
      halt := PersistRuntimeState(out.faults);
      if halt.Stopped? {
        AppendFailureEvent("apply_failure", rev.revisionNumber, halt.error, out.now);
      } else if halt.Running? && out.faults(OnReturn).Crashes? {
        halt := Crashed;
      }
    }

    method ApplyConfigRevision(rev: Revision, out: Outside) returns (halt: Halt)
      modifies this, dir
      ensures Now(halt) == Apply(crypto, identity, old(Memory()), old(dir.Contents()), rev, out)
    {
      var refused := ValidateAndStoreConfigRevision(rev);
      if refused.Some? {
        AppendFailureEvent("validation_failure", rev.revisionNumber, refused.value, out.now);
        return Stopped(refused.value);
      }
      halt := DryRun(identity, rev, out.faults(OnCandidate), out.dryRunFailure);
      if halt.Stopped? {
        AppendFailureEvent("dry_run_failure", rev.revisionNumber, halt.error, out.now);
        return;
      }
      if halt.Crashed? {
        return;
      }
      halt := StageConfigRevision(rev, out.faults);
      if halt.Running? {
        halt := ActivateStagedConfigRevision(rev, out.faults);
      }
      if halt.Stopped? {
        AppendFailureEvent("apply_failure", rev.revisionNumber, halt.error, out.now);
      } else if halt.Running? {
        halt := FinishApply(rev, out);
      }
    }

    /** The part of a poll after a revision was fetched. */
    method PollPendingConfigRevision(rev: Revision, out: Outside, at: Time)
      returns (halt: Halt, report: Option<ReportMessage>)
      modifies this, dir
      ensures (Now(halt), report) == Poll(crypto, identity, old(Memory()), old(dir.Contents()), rev, out, at)
    {
      halt := ApplyConfigRevision(rev, out);
      match halt
      case Crashed => report := None;
      case Running =>
        status := TrackValidation(status, "applied", "", at);
        report := Some(ReportMessage(rev.id, true, ""));
      case Stopped(e) =>
        var message := ErrorMessage(e);
        status := TrackValidation(status, FAILED, message, at);
        status := TrackRuntimeFailure(status, message, at, DryRunStatusFor(identity, e));
        report := Some(ReportMessage(rev.id, false, message));
    }

    method MarkRestoreDegraded(reason: string, now: Time)
      modifies this
      ensures Memory() == Degraded(old(Memory()), reason, now)
    {
      var message := "runtime_state_restore_failed:" + reason;
      status := status.(runtimeState := PREPARE_FAILED, lastRuntimeAttempt := FAILED);
      status := status.(lastRuntimeError := message, lastRuntimeAt := now);
      AppendRuntimeEvent(Event("runtime_state_restore_degraded", "degraded", 0, message), now);
    }

    method RestoreFromActiveMetadata(metadata: Reading, read: Reader, now: Time)
      modifies this
      ensures Memory() == FromMetadata(identity, old(Memory()), metadata, read, now)
    {
      match metadata
      case Absent =>
      case Unreadable => MarkRestoreDegraded("active_metadata_unreadable", now);
      case Malformed => MarkRestoreDegraded("active_metadata_malformed", now);
      case Holds(state) =>
        var restored := read(status, state);
        if restored.None? {
          MarkRestoreDegraded("active_metadata_incomplete", now);
          return;
        }
        var existing := status.events;
        history := existing + restored.value.events;
        status := CompletedStatus(restored.value, existing, identity.DryRuns());
        AppendRuntimeEvent(RestoreEvent(status.activeRevision, FROM_METADATA), now);
    }

    method RestoreRuntimeState(state: Reading, metadata: Reading, read: Reader, now: Time)
      modifies this
      ensures Memory() == Restore(identity, old(Memory()), state, metadata, read, now)
    {
      match state {
        case Absent =>
        case Unreadable => MarkRestoreDegraded("state_unreadable", now);
        case Malformed => MarkRestoreDegraded("malformed_state", now);
        case Holds(fields) =>
          var restored := read(status, fields);
          if restored.Some? {
            status, history := restored.value, restored.value.events;
            AppendRuntimeEvent(RestoreEvent(status.activeRevision, FROM_STATE), now);
            return;
          }
          MarkRestoreDegraded("incomplete_state", now);
      }
      RestoreFromActiveMetadata(metadata, read, now);
    }
  }

  /** A restart over what the directory holds. */
  method Open(crypto: Crypto, identity: Identity, dir: StateDirectory, unreadable: set<File>, now: Time)
    returns (service: Service)
    ensures fresh(service) && service.crypto == crypto && service.identity == identity && service.dir == dir
    ensures service.Memory() == NewService(identity, dir.files, unreadable, now)
  {
    service := new Service(crypto, identity, dir);
    var state := ReadFile(dir.files, unreadable, StateFile, Absent);
    var metadata := ReadFile(dir.files, unreadable, ActiveMetadataFile, Malformed);
    service.RestoreAll(state, metadata, ReaderOf(identity.Dir(), dir.files, unreadable), now);
  }
}
