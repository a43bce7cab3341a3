/** The agent's durable side (service.go): checking, staging, activating and
    persisting a revision as files in the state directory, and restoring from them.
    The functions give the effect of each operation on the agent and its disk when
    any file operation may fail or the process may die; the class carries the
    operations out in place. */
module Agent {
  import opened Text
  import opened Json
  import opened ConfigBundle
  import opened AgentCheck

  // ---- identity, status and events ----

  /** An instant; NO_TIME is the zero time. */
  type Time = int
  const NO_TIME: Time := 0

  datatype Identity = Identity(nodeId: string, nodeToken: string, stateDir: string, xrayBin: string, processMode: string)
  {
    function Dir(): string { TrimSpace(stateDir) }

    predicate DryRuns() { TrimSpace(xrayBin) != "" }

    function RuntimeModeOf(): string {
      if NormalizeProcessMode(processMode).Local? then "future-process-managed"
      else if DryRuns() then "dry-run-only"
      else "no-process"
    }
  }

  /** The two process modes that normalisation leaves. */
  datatype ProcessMode = Disabled | Local

  function ModeText(mode: ProcessMode): string {
    if mode.Local? then "local" else DISABLED
  }

  const DISABLED := "disabled"
  const CONFIG_READY := "active_config_ready"
  const PREPARE_FAILED := "prepare_failed"
  const VALIDATION_FAILED := "validation_failed"
  const SKIPPED := "skipped"
  const READY := "ready"
  const FAILED := "failed"
  const DESIRED_READY := "validated-config-ready"

  function NormalizeProcessMode(value: string): ProcessMode {
    if TrimSpace(value) == "local" then Local else Disabled
  }

  function DryRunStatus(dryRuns: bool): string {
    if dryRuns then "passed" else "not_configured"
  }

  datatype RuntimeEvent = RuntimeEvent(
    kind: string, status: string, revisionNumber: int, message: string,
    runtimeMode: string, processMode: string, processState: string, at: Time)

  datatype AgentStatus = AgentStatus(
    activeRevision: int, lastAppliedRevision: int, lastRollbackRevision: int, stagedRevision: int,
    rollbackCandidate: int, lastRuntimePrepared: int,
    runtimeMode: string, processMode: ProcessMode, processState: string, desiredState: string,
    runtimeState: string, lastDryRunStatus: string, lastRuntimeAttempt: string,
    lastRuntimeAt: Time, lastRuntimeError: string,
    lastValidationStatus: string, lastValidationError: string, lastValidationAt: Time,
    configPath: string, metadataPath: string, events: seq<RuntimeEvent>)

  /** history: every event since the process restored its state, oldest first. A history variable. */
  datatype Agent = Agent(status: AgentStatus, known: map<int, Revision>, history: seq<RuntimeEvent>)

  function OrElse(s: string, default: string): string {
    if s == "" then default else s
  }

  function TimeOr(t: Time, default: Time): Time {
    if t == NO_TIME then default else t
  }

  const TRAIL_LIMIT: nat := 20

  function LastEvents(events: seq<RuntimeEvent>): seq<RuntimeEvent> {
    if |events| > TRAIL_LIMIT then events[|events| - TRAIL_LIMIT..] else events
  }

  function Completed(s: AgentStatus, e: RuntimeEvent, now: Time): RuntimeEvent {
    e.(at := TimeOr(e.at, now), message := TrimSpace(e.message),
       runtimeMode := OrElse(e.runtimeMode, s.runtimeMode),
       processMode := OrElse(e.processMode, ModeText(s.processMode)),
       processState := OrElse(e.processState, s.processState))
  }

  function AppendEvent(a: Agent, e: RuntimeEvent, now: Time): Agent {
    var event := Completed(a.status, e, now);
    a.(status := a.status.(events := LastEvents(a.status.events + [event])), history := a.history + [event])
  }

  function Event(kind: string, status: string, number: int, message: string): RuntimeEvent {
    RuntimeEvent(kind, status, number, message, "", "", "", NO_TIME)
  }

  function AppendFailure(a: Agent, kind: string, number: int, e: AgentError, now: Time): Agent {
    AppendEvent(a, Event(kind, FAILED, number, ErrorMessage(e)), now)
  }

  // ---- the state directory ----

  datatype File =
    | RevisionConfigFile(number: int) | RevisionMetadataFile(number: int)
    | StagedConfigFile | StagedMetadataFile | ActiveMetadataFile | ActiveConfigFile | StateFile

  function Name(dir: string, f: File): string {
    dir + match f
          case RevisionConfigFile(n) => "/revisions/" + IntText(n) + "/config.json"
          case RevisionMetadataFile(n) => "/revisions/" + IntText(n) + "/metadata.json"
          case StagedConfigFile => "/staged/config.json"
          case StagedMetadataFile => "/staged/metadata.json"
          case ActiveMetadataFile => "/active/metadata.json"
          case ActiveConfigFile => "/active/config.json"
          case StateFile => "/state.json"
  }

  /** A file's bytes: the text of a JSON object, nothing, or bytes that are no JSON. */
  datatype Content = Document(members: map<Key, Doc>) | NoBytes | Garbled

  function ToText(fields: Fields): Content {
    Document(map k | k in fields :: Marshal(fields[k]))
  }

  function FromText(members: map<Key, Doc>): Fields {
    map k | k in members :: Unmarshal(members[k])
  }

  /** attempts, stamps and writes are history variables: the revisions whose staging
      was started, the attempt that last wrote each file, and all writes ever done. */
  datatype Disk = Disk(
    files: map<File, Content>, attempts: seq<Revision>, stamps: map<File, nat>, writes: set<(File, nat)>)

  const EmptyDisk := Disk(map[], [], map[], {})

  function Stamp(disk: Disk, f: File): nat {
    if f in disk.stamps then disk.stamps[f] else 0
  }

  /** One atomic replacement by the current attempt. */
  function Replaced(disk: Disk, f: File, content: Content): Disk {
    var attempt := |disk.attempts|;
    disk.(files := disk.files[f := content], stamps := disk.stamps[f := attempt],
          writes := disk.writes + {(f, attempt)})
  }

  function Begin(disk: Disk, rev: Revision): Disk {
    disk.(attempts := disk.attempts + [rev])
  }

  // ---- faults ----

  /** Where an apply touches the outside world. A crash strikes before the operation. */
  datatype Point =
    | OnCandidate | OnRevisionDir | OnStagedDir | OnRevisionConfig | OnRevisionMetadata
    | OnStagedConfig | OnStagedMetadata | OnActiveDir | OnStagedConfigRead | OnStagedMetadataRead
    | OnActiveMetadata | OnActiveConfig | OnState | OnPrepare | OnStateRead | OnStateAgain | OnReturn

  datatype Fault = Fine | Fails | Crashes
  type Faults = Point -> Fault

  datatype Halt = Running | Stopped(error: AgentError) | Crashed

  /** An operation in progress. */
  datatype Progress = Progress(agent: Agent, disk: Disk, halt: Halt)

  function Guard(p: Progress, fault: Fault): Progress {
    if !p.halt.Running? || fault.Fine? then p
    else p.(halt := if fault.Fails? then Stopped(ArtifactWrite) else Crashed)
  }

  function Put(p: Progress, fault: Fault, f: File, content: Content): Progress {
    if p.halt.Running? && fault.Fine? then p.(disk := Replaced(p.disk, f, content)) else Guard(p, fault)
  }

  /** Reading a file that has to hold JSON. */
  function MustRead(p: Progress, fault: Fault, f: File): Progress {
    if !p.halt.Running? || !fault.Fine? then Guard(p, fault)
    else if f !in p.disk.files then p.(halt := Stopped(ArtifactWrite))
    else if !p.disk.files[f].Document? then p.(halt := Stopped(InvalidPayload))
    else p
  }

  function ContentOf(disk: Disk, f: File): Content {
    if f in disk.files then disk.files[f] else NoBytes
  }

  // ---- validating, staging, activating ----

  function BundleFields(rev: Revision): Fields {
    if rev.bundle.Obj? then rev.bundle.fields else map[]
  }

  function TextOf(bundle: Fields, key: Key): string {
    match GetStr(bundle, key) case Some(s) => s case None => ""
  }

  function NumberOf(bundle: Fields, key: Key): int {
    match NumberAsInt(Get(bundle, key)) case Some(n) => n case None => 0
  }

  function Stored(a: Agent, rev: Revision): Agent {
    a.(known := a.known[rev.revisionNumber := rev],
       status := a.status.(lastRollbackRevision := rev.rollbackTarget))
  }

  /** The dry run of a candidate file that is removed again. */
  function DryRun(id: Identity, rev: Revision, fault: Fault, verdict: Option<string>): Halt {
    if !id.DryRuns() then Running
    else if id.Dir() == "" then Stopped(StateDirRequired)
    else if GetObj(BundleFields(rev), Config).None? then Stopped(InvalidPayload)
    else if fault.Fails? then Stopped(ArtifactWrite)
    else if fault.Crashes? then Crashed
    else if verdict.Some? then Stopped(DryRunFailed(verdict.value))
    else Running
  }

  function ConfigContent(rev: Revision): Content {
    match GetObj(BundleFields(rev), Config) case Some(config) => ToText(config) case None => NoBytes
  }

  function MetadataFields(dir: string, rev: Revision): Fields {
    map[RevisionId := Str(rev.id), NodeId := Str(rev.nodeId), RevisionNumber := Int(rev.revisionNumber),
        BundleHash := Str(rev.bundleHash), SignerName := Str(rev.signer), RollbackTarget := Int(rev.rollbackTarget),
        OperationKind := Str(TextOf(BundleFields(rev), OperationKind)),
        SourceRevisionId := Str(TextOf(BundleFields(rev), SourceRevisionId)),
        SourceRevisionNumber := Int(NumberOf(BundleFields(rev), SourceRevisionNumber)),
        ConfigPath := Str(Name(dir, RevisionConfigFile(rev.revisionNumber))),
        StagedConfigPath := Str(Name(dir, StagedConfigFile)),
        ActiveConfigPath := Str(Name(dir, ActiveConfigFile)),
        ApplyMode := Str("staged-active-file-switch")]
  }

  function MetadataContent(dir: string, rev: Revision): Content {
    ToText(MetadataFields(dir, rev))
  }

  function StagedStatus(s: AgentStatus, rev: Revision): AgentStatus {
    s.(stagedRevision := rev.revisionNumber, rollbackCandidate := rev.rollbackTarget)
  }

  /** The four staging writes, in order. */
  function WriteStaged(p: Progress, dir: string, rev: Revision, faults: Faults): Progress {
    var n, config, metadata := rev.revisionNumber, ConfigContent(rev), MetadataContent(dir, rev);
    var a := Put(p, faults(OnRevisionConfig), RevisionConfigFile(n), config);
    var b := Put(a, faults(OnRevisionMetadata), RevisionMetadataFile(n), metadata);
    var c := Put(b, faults(OnStagedConfig), StagedConfigFile, config);
    Put(c, faults(OnStagedMetadata), StagedMetadataFile, metadata)
  }

  function Stage(id: Identity, p: Progress, rev: Revision, faults: Faults): Progress {
    if !p.halt.Running? then p
    else if id.Dir() == "" then p.(halt := Stopped(StateDirRequired))
    else if GetObj(BundleFields(rev), Config).None? then p.(halt := Stopped(InvalidPayload))
    else
      var begun := p.(disk := Begin(p.disk, rev));
      var ready := Guard(Guard(begun, faults(OnRevisionDir)), faults(OnStagedDir));
      var q := WriteStaged(ready, id.Dir(), rev, faults);
      if q.halt.Running? then q.(agent := q.agent.(status := StagedStatus(q.agent.status, rev))) else q
  }

  /** What activation puts in the state file besides the status. */
  datatype Activation = Activation(
    number: int, target: int, dryRunStatus: string, configName: string, metadataName: string,
    revisionConfigName: string, revisionMetadataName: string, operation: string, sourceId: string, sourceNumber: int)

  function ActivationOf(id: Identity, rev: Revision): Activation {
    var bundle := BundleFields(rev);
    Activation(
      rev.revisionNumber, rev.rollbackTarget, DryRunStatus(id.DryRuns()),
      Name(id.Dir(), ActiveConfigFile), Name(id.Dir(), ActiveMetadataFile),
      Name(id.Dir(), RevisionConfigFile(rev.revisionNumber)), Name(id.Dir(), RevisionMetadataFile(rev.revisionNumber)),
      TextOf(bundle, OperationKind), TextOf(bundle, SourceRevisionId), NumberOf(bundle, SourceRevisionNumber))
  }

  /** The state file as activation first writes it. */
  function ActivationFields(a: Activation, s: AgentStatus): Fields {
    map[ActiveRevision := Int(a.number), StagedRevision := Int(a.number), LastAppliedRevision := Int(a.number),
        RollbackCandidate := Int(a.target), RuntimeMode := Str(s.runtimeMode),
        RuntimeProcessMode := Str(ModeText(s.processMode)), RuntimeProcessState := Str(s.processState),
        RuntimeDesiredState := Str(s.desiredState), RuntimeState := Str(CONFIG_READY),
        LastDryRunStatus := Str(a.dryRunStatus), LastRuntimeAttempt := Str(SKIPPED),
        LastRuntimePrepared := Int(a.number), ProcessControl := Str("unavailable"),
        ConfigArtifactPath := Str(a.configName), MetadataArtifactPath := Str(a.metadataName),
        RevisionConfigPath := Str(a.revisionConfigName), RevisionMetadataPath := Str(a.revisionMetadataName),
        OperationKind := Str(a.operation), SourceRevisionId := Str(a.sourceId),
        SourceRevisionNumber := Int(a.sourceNumber)]
  }

  function ActivationState(id: Identity, s: AgentStatus, rev: Revision): Fields {
    ActivationFields(ActivationOf(id, rev), s)
  }

  /** The file switch: metadata before config, then the state file. */
  function Activate(id: Identity, p: Progress, rev: Revision, faults: Faults): Progress {
    var a := Guard(p, faults(OnActiveDir));
    var b := MustRead(a, faults(OnStagedConfigRead), StagedConfigFile);
    var c := MustRead(b, faults(OnStagedMetadataRead), StagedMetadataFile);
    var d := Put(c, faults(OnActiveMetadata), ActiveMetadataFile, ContentOf(c.disk, StagedMetadataFile));
    var e := Put(d, faults(OnActiveConfig), ActiveConfigFile, ContentOf(c.disk, StagedConfigFile));
    Put(e, faults(OnState), StateFile, ToText(ActivationState(id, p.agent.status, rev)))
  }

  // ---- preparing the process ----

  datatype RunnerOutcome =
    | Cancelled
    | RunnerFailed(message: string)
    | RunnerStarted(processState: string, attempt: string, message: string, at: Time)

  datatype Transition = Transition(
    processMode: ProcessMode, processState: string, state: string, attempt: string, message: string, at: Time)

  /** The runtime supervisor's answer: a transition, unless cancelled, and whether it is a success. */
  function PrepareActiveConfig(s: AgentStatus, runner: RunnerOutcome, now: Time): (r: (Option<Transition>, bool))
    ensures r.1 ==> r.0.Some?
  {
    if runner.Cancelled? then (None, false)
    else if s.processMode.Disabled? then
      (Some(Transition(Disabled, DISABLED, CONFIG_READY, SKIPPED, "", now)), true)
    else
      match runner
      case RunnerStarted(processState, attempt, message, at) =>
        (Some(Transition(Local, OrElse(processState, READY), CONFIG_READY, OrElse(attempt, READY), TrimSpace(message),
                         TimeOr(at, now))), true)
      case RunnerFailed(message) =>
        (Some(Transition(Local, FAILED, PREPARE_FAILED, FAILED, TrimSpace(message), now)), false)
  }

  function TrackApplied(s: AgentStatus, rev: Revision): AgentStatus {
    s.(activeRevision := rev.revisionNumber, lastAppliedRevision := rev.revisionNumber)
  }

  function TrackPrepared(id: Identity, s: AgentStatus, rev: Revision, t: Transition): AgentStatus {
    s.(runtimeState := t.state, processMode := t.processMode, processState := t.processState,
       lastDryRunStatus := DryRunStatus(id.DryRuns()), lastRuntimeAttempt := t.attempt,
       lastRuntimePrepared := rev.revisionNumber, lastRuntimeAt := t.at, lastRuntimeError := TrimSpace(t.message),
       configPath := Name(id.Dir(), ActiveConfigFile), metadataPath := Name(id.Dir(), ActiveMetadataFile))
  }

  function TrackValidation(s: AgentStatus, status: string, message: string, at: Time): AgentStatus {
    s.(lastValidationStatus := status, lastValidationError := TrimSpace(message), lastValidationAt := at)
  }

  function TrackRuntimeFailure(s: AgentStatus, message: string, at: Time, dryRunStatus: string): AgentStatus {
    s.(runtimeState := VALIDATION_FAILED, processState := if s.processMode.Local? then FAILED else DISABLED,
       lastDryRunStatus := dryRunStatus, lastRuntimeAttempt := FAILED,
       lastRuntimeAt := at, lastRuntimeError := TrimSpace(message))
  }

  // ---- persisting ----

  const OMITTED_EMPTY: set<Key> := {RevisionNumber, Message, RuntimeMode, RuntimeProcessMode, RuntimeProcessState}

  /** Without the members that are left out when they are empty. */
  function OmitEmpty(fields: Fields): Fields {
    map k | k in fields && !(k in OMITTED_EMPTY && (fields[k] == Str("") || fields[k] == Int(0))) :: fields[k]
  }

  function EventFields(e: RuntimeEvent, at: string): Fields {
    map[Type := Str(e.kind), Status := Str(e.status), RevisionNumber := Int(e.revisionNumber),
        Message := Str(e.message), RuntimeMode := Str(e.runtimeMode), RuntimeProcessMode := Str(e.processMode),
        RuntimeProcessState := Str(e.processState), At := Str(at)]
  }

  function EventJson(e: RuntimeEvent): Json {
    Obj(OmitEmpty(EventFields(e, IntText(e.at))))
  }

  function EventsJson(events: seq<RuntimeEvent>): Json {
    Arr(seq(|events|, i requires 0 <= i < |events| => EventJson(events[i])))
  }

  /** A status with the parts of it that have a text of their own. */
  datatype Persisted = Persisted(
    status: AgentStatus, processMode: string, runtimeAt: string, validationAt: string, events: Json, control: string)

  function PersistedOf(s: AgentStatus): Persisted {
    Persisted(
      s, ModeText(s.processMode), IntText(s.lastRuntimeAt), IntText(s.lastValidationAt), EventsJson(s.events),
      if s.processMode.Local? then "local-skeleton" else "unavailable")
  }

  function StatusFields(p: Persisted): Fields {
    var s := p.status;
    map[RuntimeMode := Str(s.runtimeMode), RuntimeProcessMode := Str(p.processMode),
        RuntimeProcessState := Str(s.processState), RuntimeDesiredState := Str(s.desiredState),
        RuntimeState := Str(s.runtimeState), LastDryRunStatus := Str(s.lastDryRunStatus),
        LastRuntimeAttempt := Str(s.lastRuntimeAttempt), LastRuntimePrepared := Int(s.lastRuntimePrepared),
        LastRuntimeAt := Str(p.runtimeAt), LastRuntimeError := Str(s.lastRuntimeError),
        ActiveRevision := Int(s.activeRevision), StagedRevision := Int(s.stagedRevision),
        LastAppliedRevision := Int(s.lastAppliedRevision), LastRollbackRevision := Int(s.lastRollbackRevision),
        RollbackCandidate := Int(s.rollbackCandidate), LastValidationStatus := Str(s.lastValidationStatus),
        LastValidationError := Str(s.lastValidationError), LastValidationAt := Str(p.validationAt),
        ConfigArtifactPath := Str(s.configPath), MetadataArtifactPath := Str(s.metadataPath),
        RuntimeEvents := p.events, ProcessControl := Str(p.control)]
  }

  /** The status written over what the state file held. */
  function WithStatus(state: Fields, s: AgentStatus): Fields {
    state + StatusFields(PersistedOf(s))
  }

  function Persist(p: Progress, faults: Faults): Progress {
    var q := Guard(p, faults(OnStateRead));
    if !q.halt.Running? then q
    else
      match ContentOf(q.disk, StateFile)
      case Garbled => q.(halt := Stopped(InvalidPayload))
      case NoBytes => Put(q, faults(OnStateAgain), StateFile, ToText(WithStatus(map[], q.agent.status)))
      case Document(members) =>
        Put(q, faults(OnStateAgain), StateFile, ToText(WithStatus(FromText(members), q.agent.status)))
  }

  // ---- applying ----

  /** Everything one apply learns from outside. */
  datatype Outside = Outside(faults: Faults, dryRunFailure: Option<string>, runner: RunnerOutcome, now: Time)

  function WithFailureEvent(p: Progress, kind: string, rev: Revision, now: Time): Progress {
    if p.halt.Stopped? then p.(agent := AppendFailure(p.agent, kind, rev.revisionNumber, p.halt.error, now)) else p
  }

  const INTENT_MESSAGE := "local process prepare/start intent recorded"

  function IntentEvent(rev: Revision, t: Transition): RuntimeEvent {
    Event("process_prepare_start_intent", READY, rev.revisionNumber, INTENT_MESSAGE).(at := t.at)
  }

  function SuccessEvent(rev: Revision, t: Transition): RuntimeEvent {
    Event("apply_success", "applied", rev.revisionNumber, "").(at := t.at)
  }

  function SuccessEvents(a: Agent, rev: Revision, t: Transition, now: Time): Agent {
    var b := if a.status.processMode.Local? then AppendEvent(a, IntentEvent(rev, t), now) else a;
    AppendEvent(b, SuccessEvent(rev, t), now)
  }

  /** The status and events of a revision that is active and prepared. */
  function Succeeded(id: Identity, a: Agent, rev: Revision, t: Transition, now: Time): Agent {
    var tracked := a.(status := TrackPrepared(id, TrackApplied(a.status, rev), rev, t));
    var told := SuccessEvents(tracked, rev, t, now);
    told.(status := TrackValidation(told.status, "applied", "", now))
  }

  function UnpreparedEvent(rev: Revision, t: Option<Transition>): RuntimeEvent {
    var e := Event("apply_failure", FAILED, rev.revisionNumber, ErrorMessage(PrepareFailed));
    if t.Some? then e.(processMode := ModeText(t.value.processMode), processState := t.value.processState) else e
  }

  /** Once the files are switched: prepare the process, track, persist. */
  function Finish(id: Identity, p: Progress, rev: Revision, out: Outside): Progress {
    if !p.halt.Running? then p
    else if out.faults(OnPrepare).Crashes? then p.(halt := Crashed)
    else
      var (t, ok) := PrepareActiveConfig(p.agent.status, out.runner, out.now);
      if !ok then
        p.(agent := AppendEvent(p.agent, UnpreparedEvent(rev, t), out.now), halt := Stopped(PrepareFailed))
      else
        var ready := p.(agent := Succeeded(id, p.agent, rev, t.value, out.now));
        var q := WithFailureEvent(Persist(ready, out.faults), "apply_failure", rev, out.now);
        if q.halt.Running? && out.faults(OnReturn).Crashes? then q.(halt := Crashed) else q
  }

  /** A revision that was checked and dry-run. */
  function ApplyChecked(id: Identity, p: Progress, rev: Revision, out: Outside): Progress {
    if p.halt.Stopped? then WithFailureEvent(p, "dry_run_failure", rev, out.now)
    else
      var q := Activate(id, Stage(id, p, rev, out.faults), rev, out.faults);
      if q.halt.Stopped? then WithFailureEvent(q, "apply_failure", rev, out.now) else Finish(id, q, rev, out)
  }

  function Apply(c: Crypto, id: Identity, a: Agent, disk: Disk, rev: Revision, out: Outside): Progress {
    match CheckRevision(c, id.nodeId, rev)
    case Some(e) =>
      Progress(AppendFailure(a, "validation_failure", rev.revisionNumber, e, out.now), disk, Stopped(e))
    case None =>
      var halt := DryRun(id, rev, out.faults(OnCandidate), out.dryRunFailure);
      ApplyChecked(id, Progress(Stored(a, rev), disk, halt), rev, out)
  }

  datatype ReportMessage = ReportMessage(revisionId: string, applied: bool, errorMessage: string)

  function DryRunStatusFor(id: Identity, e: AgentError): string {
    if e.DryRunFailed? then FAILED else DryRunStatus(id.DryRuns())
  }

  /** The status after a poll, by how its apply ended. */
  function PolledStatus(id: Identity, p: Progress, at: Time): AgentStatus {
    match p.halt
    case Crashed => p.agent.status
    case Running => TrackValidation(p.agent.status, "applied", "", at)
    case Stopped(e) =>
      TrackRuntimeFailure(
        TrackValidation(p.agent.status, FAILED, ErrorMessage(e), at), ErrorMessage(e), at, DryRunStatusFor(id, e))
  }

  function ReportOf(rev: Revision, halt: Halt): Option<ReportMessage> {
    match halt
    case Crashed => None
    case Running => Some(ReportMessage(rev.id, true, ""))
    case Stopped(e) => Some(ReportMessage(rev.id, false, ErrorMessage(e)))
  }

  /** A poll that fetched rev: apply it and send one report, unless the process dies. */
  function Poll(c: Crypto, id: Identity, a: Agent, disk: Disk, rev: Revision, out: Outside, at: Time):
    (Progress, Option<ReportMessage>)
  {
    var p := Apply(c, id, a, disk, rev, out);
    (p.(agent := p.agent.(status := PolledStatus(id, p, at))), ReportOf(rev, p.halt))
  }

  // ---- restoring ----

  function IntFrom(state: Fields, key: Key, fallback: int): int {
    match NumberAsInt(Get(state, key)) case Some(n) => n case None => fallback
  }

  function TextFrom(state: Fields, key: Key): string {
    TrimSpace(TextOf(state, key))
  }

  function TimeFrom(state: Fields, key: Key): Time {
    match ParseInt(TextOf(state, key)) case Some(t) => t case None => NO_TIME
  }

  /** How the members of a state map are read. */
  datatype Reads = Reads(text: Key -> string, number: (Key, int) -> int, time: Key -> Time)

  function ReadsOf(state: Fields): Reads {
    Reads(k => TextFrom(state, k), (k, fallback) => IntFrom(state, k, fallback), k => TimeFrom(state, k))
  }

  function EventOf(r: Reads): RuntimeEvent {
    RuntimeEvent(
      r.text(Type), r.text(Status), r.number(RevisionNumber, 0), r.text(Message),
      r.text(RuntimeMode), r.text(RuntimeProcessMode), r.text(RuntimeProcessState), r.time(At))
  }

  function EventFrom(value: Json): Option<RuntimeEvent> {
    if !value.Obj? || TextFrom(value.fields, Type) == "" then None
    else Some(EventOf(ReadsOf(value.fields)))
  }

  /** What is read from the items, in order; unreadable items are skipped. */
  function Collected<T>(items: seq<Json>, read: Json -> Option<T>): seq<T> {
    if items == [] then []
    else
      Collected(items[..|items| - 1], read) +
      (match read(items[|items| - 1]) case Some(v) => [v] case None => [])
  }

  function EventsFrom(items: seq<Json>): seq<RuntimeEvent> {
    Collected(items, EventFrom)
  }

  function TrailFrom(state: Fields): seq<RuntimeEvent> {
    match GetArr(state, RuntimeEvents) case Some(items) => LastEvents(EventsFrom(items)) case None => []
  }

  /** What a file holds for a restart, where reads may fail. */
  datatype Reading = Absent | Unreadable | Malformed | Holds(state: Fields)

  function ReadFile(files: map<File, Content>, unreadable: set<File>, f: File, ifEmpty: Reading): Reading {
    if f !in files then Absent
    else if f in unreadable then Unreadable
    else
      match files[f]
      case NoBytes => ifEmpty
      case Garbled => Malformed
      case Document(members) => Holds(FromText(members))
  }

  /** The named file is there, readable and valid JSON. */
  predicate ValidJsonFile(dir: string, files: map<File, Content>, unreadable: set<File>, name: string) {
    exists f :: f in files && Name(dir, f) == name && f !in unreadable && files[f].Document?
  }

  function ActiveRevisionFrom(state: Fields): Option<int> {
    match NumberAsInt(Get(state, ActiveRevision))
    case Some(n) => Some(n)
    case None => NumberAsInt(Get(state, RevisionNumber))
  }

  function ConfigPathFrom(dir: string, state: Fields): string {
    OrElse(OrElse(TextFrom(state, ConfigArtifactPath), TextFrom(state, ActiveConfigPath)), Name(dir, ActiveConfigFile))
  }

  function MetadataPathFrom(dir: string, state: Fields): string {
    OrElse(TextFrom(state, MetadataArtifactPath), Name(dir, ActiveMetadataFile))
  }

  predicate Restorable(dir: string, files: map<File, Content>, unreadable: set<File>, state: Fields) {
    && ActiveRevisionFrom(state).Some? && ActiveRevisionFrom(state).value > 0
    && ValidJsonFile(dir, files, unreadable, ConfigPathFrom(dir, state))
    && ValidJsonFile(dir, files, unreadable, MetadataPathFrom(dir, state))
  }

  function ProcessModeFrom(text: string, fallback: ProcessMode): ProcessMode {
    if text == "" then fallback else NormalizeProcessMode(text)
  }

  function StatusOf(
    s: AgentStatus, r: Reads, active: int, configPath: string, metadataPath: string, trail: seq<RuntimeEvent>): AgentStatus
  {
    var target := r.number(RollbackTarget, 0);
    AgentStatus(
      active, r.number(LastAppliedRevision, active), r.number(LastRollbackRevision, target),
      r.number(StagedRevision, active), r.number(RollbackCandidate, target), r.number(LastRuntimePrepared, active),
      OrElse(r.text(RuntimeMode), s.runtimeMode),
      ProcessModeFrom(r.text(RuntimeProcessMode), s.processMode),
      OrElse(r.text(RuntimeProcessState), s.processState),
      OrElse(r.text(RuntimeDesiredState), DESIRED_READY),
      OrElse(r.text(RuntimeState), CONFIG_READY),
      OrElse(r.text(LastDryRunStatus), s.lastDryRunStatus),
      OrElse(r.text(LastRuntimeAttempt), SKIPPED),
      r.time(LastRuntimeAt), r.text(LastRuntimeError),
      r.text(LastValidationStatus), r.text(LastValidationError), r.time(LastValidationAt),
      configPath, metadataPath, trail)
  }

  function StatusFrom(dir: string, s: AgentStatus, state: Fields): AgentStatus
    requires ActiveRevisionFrom(state).Some?
  {
    StatusOf(
      s, ReadsOf(state), ActiveRevisionFrom(state).value, ConfigPathFrom(dir, state), MetadataPathFrom(dir, state),
      TrailFrom(state))
  }

  function Degraded(a: Agent, reason: string, now: Time): Agent {
    var message := "runtime_state_restore_failed:" + reason;
    var s := a.status.(runtimeState := PREPARE_FAILED, lastRuntimeAttempt := FAILED, lastRuntimeError := message,
                       lastRuntimeAt := now);
    AppendEvent(a.(status := s), Event("runtime_state_restore_degraded", "degraded", 0, message), now)
  }

  const FROM_METADATA := "runtime state restored from active metadata"
  const FROM_STATE := "runtime state restored from state.json"

  function RestoreEvent(number: int, message: string): RuntimeEvent {
    Event("runtime_state_restore", "restored", number, message)
  }

  /** The status that a state map restores, if it is complete. */
  type Reader = (AgentStatus, Fields) -> Option<AgentStatus>

  function ReaderOf(dir: string, files: map<File, Content>, unreadable: set<File>): Reader {
    (s, state) => if Restorable(dir, files, unreadable, state) then Some(StatusFrom(dir, s, state)) else None
  }

  /** Restored from the active metadata: what it does not tell, and the events so far. */
  function CompletedStatus(s: AgentStatus, earlier: seq<RuntimeEvent>, dryRuns: bool): AgentStatus {
    s.(runtimeState := CONFIG_READY,
       lastRuntimeAttempt := OrElse(s.lastRuntimeAttempt, SKIPPED),
       lastDryRunStatus := OrElse(s.lastDryRunStatus, DryRunStatus(dryRuns)),
       lastValidationStatus := OrElse(s.lastValidationStatus, "restored"),
       events := LastEvents(earlier + s.events))
  }

  function FromMetadata(id: Identity, a: Agent, metadata: Reading, read: Reader, now: Time): Agent {
    match metadata
    case Absent => a
    case Unreadable => Degraded(a, "active_metadata_unreadable", now)
    case Malformed => Degraded(a, "active_metadata_malformed", now)
    case Holds(state) =>
      match read(a.status, state)
      case None => Degraded(a, "active_metadata_incomplete", now)
      case Some(s) =>
        AppendEvent(
          a.(status := CompletedStatus(s, a.status.events, id.DryRuns()), history := a.status.events + s.events),
          RestoreEvent(s.activeRevision, FROM_METADATA), now)
  }

  function FromState(a: Agent, s: AgentStatus, now: Time): Agent {
    AppendEvent(
      a.(status := s, history := s.events),
      RestoreEvent(s.activeRevision, FROM_STATE), now)
  }

  /** An empty state file counts as none, an empty metadata file as malformed. */
  function Restore(id: Identity, a: Agent, state: Reading, metadata: Reading, read: Reader, now: Time): Agent {
    match state
    case Absent => FromMetadata(id, a, metadata, read, now)
    case Unreadable => FromMetadata(id, Degraded(a, "state_unreadable", now), metadata, read, now)
    case Malformed => FromMetadata(id, Degraded(a, "malformed_state", now), metadata, read, now)
    case Holds(fields) =>
      match read(a.status, fields)
      case Some(s) => FromState(a, s, now)
      case None => FromMetadata(id, Degraded(a, "incomplete_state", now), metadata, read, now)
  }

  function InitialStatus(id: Identity): AgentStatus {
    AgentStatus(
      0, 0, 0, 0, 0, 0, id.RuntimeModeOf(), NormalizeProcessMode(id.processMode), DISABLED, DESIRED_READY,
      "not_prepared", "not_configured", SKIPPED, NO_TIME, "", "", "", NO_TIME, "", "", [])
  }

  /** Process mode and runtime mode come from the identity, whatever was stored. */
  function WithIdentityModes(id: Identity, a: Agent): Agent {
    a.(status := a.status.(processMode := NormalizeProcessMode(id.processMode), runtimeMode := id.RuntimeModeOf()))
  }

  function Opened(id: Identity, a: Agent, state: Reading, metadata: Reading, read: Reader, now: Time): Agent {
    WithIdentityModes(id, if id.Dir() == "" then a else Restore(id, a, state, metadata, read, now))
  }

  /** A new process over the state directory. */
  function NewService(id: Identity, files: map<File, Content>, unreadable: set<File>, now: Time): Agent {
    Opened(
      id, Agent(InitialStatus(id), map[], []), ReadFile(files, unreadable, StateFile, Absent),
      ReadFile(files, unreadable, ActiveMetadataFile, Malformed), ReaderOf(id.Dir(), files, unreadable), now)
  }
}
