/** Restoring what was persisted, and the trail of runtime events. */
module Restoration {
  import opened Text
  import opened Json
  import opened ConfigBundle
  import opened AgentCheck
  import opened DecodingTheorems
  import opened Agent
  import opened CrashConsistency

  // ---- the trail ----

  /** The trail is the last TRAIL_LIMIT events of the whole history. */
  predicate TrailOk(a: Agent) {
    a.status.events == LastEvents(a.history)
  }

  lemma AppendKeepsTrail(a: Agent, e: RuntimeEvent, now: Time)
    requires TrailOk(a)
    ensures TrailOk(AppendEvent(a, e, now))
    ensures AppendEvent(a, e, now).history == a.history + [Completed(a.status, e, now)]
  {
  }

  lemma FailureKeepsTrail(p: Progress, kind: string, rev: Revision, now: Time)
    requires TrailOk(p.agent)
    ensures TrailOk(WithFailureEvent(p, kind, rev, now).agent)
  {
    if p.halt.Stopped? {
      AppendKeepsTrail(p.agent, Event(kind, FAILED, rev.revisionNumber, ErrorMessage(p.halt.error)), now);
    }
  }

  lemma SuccessKeepsTrail(id: Identity, a: Agent, rev: Revision, t: Transition, now: Time)
    requires TrailOk(a)
    ensures TrailOk(Succeeded(id, a, rev, t, now))
  {
    var tracked := a.(status := TrackPrepared(id, TrackApplied(a.status, rev), rev, t));
    AppendKeepsTrail(tracked, IntentEvent(rev, t), now);
    var b := if tracked.status.processMode.Local? then AppendEvent(tracked, IntentEvent(rev, t), now) else tracked;
    AppendKeepsTrail(b, SuccessEvent(rev, t), now);
  }

  lemma PersistKeepsAgent(p: Progress, faults: Faults)
    ensures Persist(p, faults).agent == p.agent
  {
  }

  lemma FinishKeepsTrail(id: Identity, p: Progress, rev: Revision, out: Outside)
    requires TrailOk(p.agent)
    ensures TrailOk(Finish(id, p, rev, out).agent)
  {
    var (t, ok) := PrepareActiveConfig(p.agent.status, out.runner, out.now);
    if !ok {
      AppendKeepsTrail(p.agent, UnpreparedEvent(rev, t), out.now);
    } else {
      var ready := p.(agent := Succeeded(id, p.agent, rev, t.value, out.now));
      SuccessKeepsTrail(id, p.agent, rev, t.value, out.now);
      PersistKeepsAgent(ready, out.faults);
      FailureKeepsTrail(Persist(ready, out.faults), "apply_failure", rev, out.now);
    }
  }

  /** Staging and activating record only the staged revision. */
  lemma SwitchAgent(id: Identity, p: Progress, rev: Revision, faults: Faults)
    ensures
      var a := Activate(id, Stage(id, p, rev, faults), rev, faults).agent;
      a == p.agent || a == p.agent.(status := StagedStatus(p.agent.status, rev))
  {
    StageAgent(id, p, rev, faults);
    ActivateAgent(id, Stage(id, p, rev, faults), rev, faults);
  }

  lemma StagedAgent(p: Progress, dir: string, rev: Revision, faults: Faults)
    ensures WriteStaged(p, dir, rev, faults).agent == p.agent
  {
  }

  lemma StageAgent(id: Identity, p: Progress, rev: Revision, faults: Faults)
    ensures
      var a := Stage(id, p, rev, faults).agent;
      a == p.agent || a == p.agent.(status := StagedStatus(p.agent.status, rev))
  {
    var begun := p.(disk := Begin(p.disk, rev));
    StagedAgent(Guard(Guard(begun, faults(OnRevisionDir)), faults(OnStagedDir)), id.Dir(), rev, faults);
  }

  lemma ActivateAgent(id: Identity, p: Progress, rev: Revision, faults: Faults)
    ensures Activate(id, p, rev, faults).agent == p.agent
  {
  }

  lemma PollKeepsTrail(c: Crypto, id: Identity, a: Agent, disk: Disk, rev: Revision, out: Outside, at: Time)
    requires TrailOk(a)
    ensures TrailOk(Poll(c, id, a, disk, rev, out, at).0.agent)
  {
    ApplyKeepsTrail(c, id, a, disk, rev, out);
  }

  lemma CheckedKeepsTrail(id: Identity, p: Progress, rev: Revision, out: Outside)
    requires TrailOk(p.agent)
    ensures TrailOk(ApplyChecked(id, p, rev, out).agent)
  {
    FailureKeepsTrail(p, "dry_run_failure", rev, out.now);
    SwitchAgent(id, p, rev, out.faults);
    var q := Activate(id, Stage(id, p, rev, out.faults), rev, out.faults);
    FailureKeepsTrail(q, "apply_failure", rev, out.now);
    FinishKeepsTrail(id, q, rev, out);
  }

  lemma ApplyKeepsTrail(c: Crypto, id: Identity, a: Agent, disk: Disk, rev: Revision, out: Outside)
    requires TrailOk(a)
    ensures TrailOk(Apply(c, id, a, disk, rev, out).agent)
  {
    var refused := CheckRevision(c, id.nodeId, rev);
    if refused.Some? {
      AppendKeepsTrail(a, Event("validation_failure", FAILED, rev.revisionNumber, ErrorMessage(refused.value)), out.now);
    } else {
      CheckedKeepsTrail(
        id, Progress(Stored(a, rev), disk, DryRun(id, rev, out.faults(OnCandidate), out.dryRunFailure)), rev, out);
    }
  }

  /** What a state map restores has at most TRAIL_LIMIT events. */
  ghost predicate ShortTrails(read: Reader) {
    forall s, state :: read(s, state).Some? ==> |read(s, state).value.events| <= TRAIL_LIMIT
  }

  lemma DegradedKeepsTrail(a: Agent, reason: string, now: Time)
    requires TrailOk(a)
    ensures TrailOk(Degraded(a, reason, now)) && |Degraded(a, reason, now).history| == |a.history| + 1
  {
  }

  lemma RestoredTrail(a: Agent, s: AgentStatus, history: seq<RuntimeEvent>, e: RuntimeEvent, now: Time)
    requires s.events == LastEvents(history)
    ensures TrailOk(AppendEvent(a.(status := s, history := history), e, now))
  {
    AppendKeepsTrail(a.(status := s, history := history), e, now);
  }

  lemma MetadataKeepsTrail(id: Identity, a: Agent, metadata: Reading, read: Reader, now: Time)
    requires TrailOk(a) && ShortTrails(read)
    ensures TrailOk(FromMetadata(id, a, metadata, read, now))
  {
    match metadata
    case Absent =>
    case Unreadable => DegradedKeepsTrail(a, "active_metadata_unreadable", now);
    case Malformed => DegradedKeepsTrail(a, "active_metadata_malformed", now);
    case Holds(state) =>
      match read(a.status, state) {
        case None => DegradedKeepsTrail(a, "active_metadata_incomplete", now);
        case Some(s) =>
          RestoredTrail(
            a, CompletedStatus(s, a.status.events, id.DryRuns()), a.status.events + s.events,
            RestoreEvent(s.activeRevision, FROM_METADATA), now);
      }
  }

  lemma RestoreKeepsTrail(id: Identity, a: Agent, state: Reading, metadata: Reading, read: Reader, now: Time)
    requires a.history == a.status.events == [] && ShortTrails(read)
    ensures TrailOk(Restore(id, a, state, metadata, read, now))
  {
    match state
    case Absent => MetadataKeepsTrail(id, a, metadata, read, now);
    case Unreadable =>
      DegradedKeepsTrail(a, "state_unreadable", now);
      MetadataKeepsTrail(id, Degraded(a, "state_unreadable", now), metadata, read, now);
    case Malformed =>
      DegradedKeepsTrail(a, "malformed_state", now);
      MetadataKeepsTrail(id, Degraded(a, "malformed_state", now), metadata, read, now);
    case Holds(fields) =>
      match read(a.status, fields) {
        case Some(s) => RestoredTrail(a, s, s.events, RestoreEvent(s.activeRevision, FROM_STATE), now);
        case None =>
          DegradedKeepsTrail(a, "incomplete_state", now);
          MetadataKeepsTrail(id, Degraded(a, "incomplete_state", now), metadata, read, now);
      }
  }

  lemma ReaderTrails(dir: string, files: map<File, Content>, unreadable: set<File>)
    ensures ShortTrails(ReaderOf(dir, files, unreadable))
  {
    forall s, state | ReaderOf(dir, files, unreadable)(s, state).Some?
      ensures |ReaderOf(dir, files, unreadable)(s, state).value.events| <= TRAIL_LIMIT
    {
      RestoredTrailIsShort(dir, s, state);
    }
  }

  lemma RestoredTrailIsShort(dir: string, s: AgentStatus, state: Fields)
    requires ActiveRevisionFrom(state).Some?
    ensures |StatusFrom(dir, s, state).events| <= TRAIL_LIMIT
  {
  }

  lemma NewServiceTrail(id: Identity, files: map<File, Content>, unreadable: set<File>, now: Time)
    ensures TrailOk(NewService(id, files, unreadable, now))
  {
    ReaderTrails(id.Dir(), files, unreadable);
    RestoreKeepsTrail(
      id, Agent(InitialStatus(id), map[], []), ReadFile(files, unreadable, StateFile, Absent),
      ReadFile(files, unreadable, ActiveMetadataFile, Malformed), ReaderOf(id.Dir(), files, unreadable), now);
  }

  /** In every run the trail is the last events of the history since the restart. */
  lemma {:induction false} TrailIsTheLastEvents(c: Crypto, id: Identity, events: seq<LifeEvent>)
    ensures TrailOk(LifeRun(c, id, events).agent)
  {
    if events != [] {
      var front, life := events[..|events| - 1], LifeRun(c, id, events[..|events| - 1]);
      TrailIsTheLastEvents(c, id, front);
      match events[|events| - 1]
      case Restarted(unreadable, now) => NewServiceTrail(id, life.disk.files, unreadable, now);
      case Polled(rev, out, at) => PollKeepsTrail(c, id, life.agent, life.disk, rev, out, at);
    }
  }

  // ---- what is read back from text ----

  /** Every member of fields is read back as it was written; absent texts read as "". */
  ghost predicate ReadsBack(fields: Fields, r: Reads) {
    && (forall k, v :: Get(fields, k) == Some(Str(v)) && Trimmed(v) ==> r.text(k) == v)
    && (forall k :: k !in fields ==> r.text(k) == "")
    && (forall k, n, fallback :: Get(fields, k) == Some(Int(n)) && Kept(n) ==> r.number(k, fallback) == n)
    && (forall k, fallback :: k !in fields ==> r.number(k, fallback) == fallback)
    && (forall k, t :: Get(fields, k) == Some(Str(IntText(t))) ==> r.time(k) == t)
  }

  lemma TextReadsBack(fields: Fields, k: Key)
    ensures k in fields && fields[k].Str? && Trimmed(fields[k].s) ==> TextFrom(Decoded(fields), k) == fields[k].s
    ensures k !in fields ==> TextFrom(Decoded(fields), k) == ""
  {
    DecodedText(fields, k);
    TrimmedIsFixed("");
    if k in fields && fields[k].Str? && Trimmed(fields[k].s) { TrimmedIsFixed(fields[k].s); }
  }

  lemma NumberReadsBack(fields: Fields, k: Key, fallback: int)
    ensures k in fields && fields[k].Int? && Kept(fields[k].n) ==> IntFrom(Decoded(fields), k, fallback) == fields[k].n
    ensures k !in fields ==> IntFrom(Decoded(fields), k, fallback) == fallback
  {
    DecodedMember(fields, k);
    if k in fields && fields[k].Int? && Kept(fields[k].n) { KeptIsReadBack(fields[k].n); }
  }

  lemma TimeReadsBack(fields: Fields, k: Key, t: Time)
    requires Get(fields, k) == Some(Str(IntText(t)))
    ensures TimeFrom(Decoded(fields), k) == t
  {
    DecodedText(fields, k);
    ParseIntInvertsIntText(t);
  }

  lemma DecodedReadsBack(fields: Fields)
    ensures ReadsBack(fields, ReadsOf(Decoded(fields)))
  {
    var r := ReadsOf(Decoded(fields));
    forall k, v | Get(fields, k) == Some(Str(v)) && Trimmed(v) ensures r.text(k) == v { TextReadsBack(fields, k); }
    forall k | k !in fields ensures r.text(k) == "" { TextReadsBack(fields, k); }
    forall k, n, fallback | Get(fields, k) == Some(Int(n)) && Kept(n) ensures r.number(k, fallback) == n {
      NumberReadsBack(fields, k, fallback);
    }
    forall k, fallback | k !in fields ensures r.number(k, fallback) == fallback { NumberReadsBack(fields, k, fallback); }
    forall k, t | Get(fields, k) == Some(Str(IntText(t))) ensures r.time(k) == t { TimeReadsBack(fields, k, t); }
  }

  // ---- events ----

  predicate TidyEvent(e: RuntimeEvent) {
    && e.kind != "" && Trimmed(e.kind) && Trimmed(e.status) && Trimmed(e.message)
    && Trimmed(e.runtimeMode) && Trimmed(e.processMode) && Trimmed(e.processState)
  }

  predicate TidyEvents(events: seq<RuntimeEvent>) {
    forall i :: 0 <= i < |events| ==> TidyEvent(events[i])
  }

  predicate EventNumbersKept(events: seq<RuntimeEvent>) {
    forall i :: 0 <= i < |events| ==> Kept(events[i].revisionNumber)
  }

  /** A left-out member is read as the empty value it had. */
  lemma OmittedReadsBack(fields: Fields, k: Key, r: Reads)
    requires ReadsBack(OmitEmpty(fields), r) && k in fields
    ensures fields[k].Str? && Trimmed(fields[k].s) ==> r.text(k) == fields[k].s
    ensures fields[k].Int? && Kept(fields[k].n) ==> r.number(k, 0) == fields[k].n
    ensures k !in OMITTED_EMPTY ==> forall t :: fields[k] == Str(IntText(t)) ==> r.time(k) == t
  {
    if k in OmitEmpty(fields) { assert Get(OmitEmpty(fields), k) == Some(fields[k]); }
  }

  lemma EventMembers(e: RuntimeEvent, at: string)
    ensures
      var fields := EventFields(e, at);
      && Get(fields, Type) == Some(Str(e.kind)) && Get(fields, Status) == Some(Str(e.status))
      && Get(fields, RevisionNumber) == Some(Int(e.revisionNumber)) && Get(fields, Message) == Some(Str(e.message))
      && Get(fields, RuntimeMode) == Some(Str(e.runtimeMode))
      && Get(fields, RuntimeProcessMode) == Some(Str(e.processMode))
      && Get(fields, RuntimeProcessState) == Some(Str(e.processState)) && Get(fields, At) == Some(Str(at))
  {
  }

  lemma EventReadsBack(e: RuntimeEvent, fields: Fields, r: Reads)
    requires TidyEvent(e) && Kept(e.revisionNumber) && ReadsBack(OmitEmpty(fields), r)
    requires Get(fields, Type) == Some(Str(e.kind)) && Get(fields, Status) == Some(Str(e.status))
    requires Get(fields, RevisionNumber) == Some(Int(e.revisionNumber)) && Get(fields, Message) == Some(Str(e.message))
    requires Get(fields, RuntimeMode) == Some(Str(e.runtimeMode))
    requires Get(fields, RuntimeProcessMode) == Some(Str(e.processMode))
    requires Get(fields, RuntimeProcessState) == Some(Str(e.processState)) && Get(fields, At) == Some(Str(IntText(e.at)))
    ensures EventOf(r) == e
  {
    OmittedReadsBack(fields, Type, r);
    OmittedReadsBack(fields, Status, r);
    OmittedReadsBack(fields, RevisionNumber, r);
    OmittedReadsBack(fields, Message, r);
    OmittedReadsBack(fields, RuntimeMode, r);
    OmittedReadsBack(fields, RuntimeProcessMode, r);
    OmittedReadsBack(fields, RuntimeProcessState, r);
    OmittedReadsBack(fields, At, r);
  }

  lemma EventSurvives(e: RuntimeEvent)
    requires TidyEvent(e) && Kept(e.revisionNumber)
    ensures EventFrom(RoundTrip(EventJson(e))) == Some(e)
  {
    var fields := EventFields(e, IntText(e.at));
    RoundTripKeepsShape(EventJson(e));
    DecodedReadsBack(OmitEmpty(fields));
    EventMembers(e, IntText(e.at));
    EventReadsBack(e, fields, ReadsOf(Decoded(OmitEmpty(fields))));
  }

  lemma {:induction false} CollectedAll<T>(items: seq<Json>, read: Json -> Option<T>, values: seq<T>)
    requires |items| == |values| && forall i :: 0 <= i < |items| ==> read(items[i]) == Some(values[i])
    ensures Collected(items, read) == values
  {
    if items != [] {
      CollectedAll(items[..|items| - 1], read, values[..|values| - 1]);
      assert values == values[..|values| - 1] + [values[|values| - 1]];
    }
  }

  lemma EventsSurvive(events: seq<RuntimeEvent>)
    requires TidyEvents(events) && EventNumbersKept(events)
    ensures EventsJson(events).Arr? && EventsFrom(DecodedItems(EventsJson(events).items)) == events
  {
    var items := DecodedItems(EventsJson(events).items);
    forall i | 0 <= i < |items| ensures EventFrom(items[i]) == Some(events[i]) { EventSurvives(events[i]); }
    CollectedAll(items, EventFrom, events);
  }

  // ---- the status ----

  predicate TidyText(s: string) {
    s != "" && Trimmed(s)
  }

  /** Texts as the agent keeps them: trimmed, and some never empty. */
  predicate TidyStatus(s: AgentStatus) {
    && TidyText(s.runtimeMode) && TidyText(s.processState) && TidyText(s.desiredState) && TidyText(s.runtimeState)
    && TidyText(s.lastDryRunStatus) && TidyText(s.lastRuntimeAttempt)
    && Trimmed(s.lastRuntimeError) && Trimmed(s.lastValidationStatus) && Trimmed(s.lastValidationError)
    && TidyEvents(s.events) && |s.events| <= TRAIL_LIMIT
  }

  /** Every number of the status is given back by JSON text. */
  predicate NumbersKept(s: AgentStatus) {
    && Kept(s.activeRevision) && Kept(s.lastAppliedRevision) && Kept(s.lastRollbackRevision)
    && Kept(s.stagedRevision) && Kept(s.rollbackCandidate) && Kept(s.lastRuntimePrepared)
    && EventNumbersKept(s.events)
  }

  predicate NumbersIn(fields: Fields, s: AgentStatus) {
    && Get(fields, LastAppliedRevision) == Some(Int(s.lastAppliedRevision))
    && Get(fields, LastRollbackRevision) == Some(Int(s.lastRollbackRevision))
    && Get(fields, StagedRevision) == Some(Int(s.stagedRevision))
    && Get(fields, RollbackCandidate) == Some(Int(s.rollbackCandidate))
    && Get(fields, LastRuntimePrepared) == Some(Int(s.lastRuntimePrepared))
  }

  predicate TextsIn(fields: Fields, s: AgentStatus, mode: string, runtimeAt: string, validationAt: string) {
    RuntimeTextsIn(fields, s, mode) && OutcomeTextsIn(fields, s, runtimeAt, validationAt)
  }

  predicate RuntimeTextsIn(fields: Fields, s: AgentStatus, mode: string) {
    && Get(fields, RuntimeMode) == Some(Str(s.runtimeMode)) && Get(fields, RuntimeProcessMode) == Some(Str(mode))
    && Get(fields, RuntimeProcessState) == Some(Str(s.processState))
    && Get(fields, RuntimeDesiredState) == Some(Str(s.desiredState))
    && Get(fields, RuntimeState) == Some(Str(s.runtimeState))
    && Get(fields, LastDryRunStatus) == Some(Str(s.lastDryRunStatus))
    && Get(fields, LastRuntimeAttempt) == Some(Str(s.lastRuntimeAttempt))
  }

  predicate OutcomeTextsIn(fields: Fields, s: AgentStatus, runtimeAt: string, validationAt: string) {
    && Get(fields, LastRuntimeAt) == Some(Str(runtimeAt)) && Get(fields, LastRuntimeError) == Some(Str(s.lastRuntimeError))
    && Get(fields, LastValidationStatus) == Some(Str(s.lastValidationStatus))
    && Get(fields, LastValidationError) == Some(Str(s.lastValidationError))
    && Get(fields, LastValidationAt) == Some(Str(validationAt))
  }

  lemma StatusMembers(state: Fields, p: Persisted)
    ensures
      var fields := state + StatusFields(p);
      && NumbersIn(fields, p.status)
      && Get(fields, ActiveRevision) == Some(Int(p.status.activeRevision))
      && Get(fields, ConfigArtifactPath) == Some(Str(p.status.configPath))
      && Get(fields, MetadataArtifactPath) == Some(Str(p.status.metadataPath))
      && Get(fields, RuntimeEvents) == Some(p.events)
  {
  }

  lemma StatusTexts(state: Fields, p: Persisted)
    ensures TextsIn(state + StatusFields(p), p.status, p.processMode, p.runtimeAt, p.validationAt)
  {
    RuntimeTexts(state, p);
    OutcomeTexts(state, p);
  }

  lemma RuntimeTexts(state: Fields, p: Persisted)
    ensures RuntimeTextsIn(state + StatusFields(p), p.status, p.processMode)
  {
  }

  lemma OutcomeTexts(state: Fields, p: Persisted)
    ensures OutcomeTextsIn(state + StatusFields(p), p.status, p.runtimeAt, p.validationAt)
  {
  }

  lemma ModeReadsBack(mode: ProcessMode, fallback: ProcessMode)
    ensures Trimmed(ModeText(mode)) && ProcessModeFrom(ModeText(mode), fallback) == mode
  {
    TrimmedIsFixed(ModeText(mode));
  }

  lemma NumberBack(fields: Fields, r: Reads, k: Key, n: int, fallback: int)
    requires ReadsBack(fields, r) && Get(fields, k) == Some(Int(n)) && Kept(n)
    ensures r.number(k, fallback) == n
  {
  }

  lemma NumbersReadBack(fields: Fields, r: Reads, s: AgentStatus, target: int)
    requires ReadsBack(fields, r) && NumbersIn(fields, s) && NumbersKept(s)
    ensures
      && r.number(LastAppliedRevision, s.activeRevision) == s.lastAppliedRevision
      && r.number(LastRollbackRevision, target) == s.lastRollbackRevision
      && r.number(StagedRevision, s.activeRevision) == s.stagedRevision
      && r.number(RollbackCandidate, target) == s.rollbackCandidate
      && r.number(LastRuntimePrepared, s.activeRevision) == s.lastRuntimePrepared
  {
    NumberBack(fields, r, LastAppliedRevision, s.lastAppliedRevision, s.activeRevision);
    NumberBack(fields, r, LastRollbackRevision, s.lastRollbackRevision, target);
    NumberBack(fields, r, StagedRevision, s.stagedRevision, s.activeRevision);
    NumberBack(fields, r, RollbackCandidate, s.rollbackCandidate, target);
    NumberBack(fields, r, LastRuntimePrepared, s.lastRuntimePrepared, s.activeRevision);
  }

  lemma TextsReadBack(fields: Fields, r: Reads, s: AgentStatus, mode: string)
    requires ReadsBack(fields, r) && TidyStatus(s) && Trimmed(mode)
    requires TextsIn(fields, s, mode, IntText(s.lastRuntimeAt), IntText(s.lastValidationAt))
    ensures
      && r.text(RuntimeMode) == s.runtimeMode && r.text(RuntimeProcessMode) == mode
      && r.text(RuntimeProcessState) == s.processState && r.text(RuntimeDesiredState) == s.desiredState
      && r.text(RuntimeState) == s.runtimeState && r.text(LastDryRunStatus) == s.lastDryRunStatus
      && r.text(LastRuntimeAttempt) == s.lastRuntimeAttempt && r.text(LastRuntimeError) == s.lastRuntimeError
      && r.text(LastValidationStatus) == s.lastValidationStatus && r.text(LastValidationError) == s.lastValidationError
      && r.time(LastRuntimeAt) == s.lastRuntimeAt && r.time(LastValidationAt) == s.lastValidationAt
  {
  }

  lemma StatusReadsBack(fields: Fields, r: Reads, s: AgentStatus, s0: AgentStatus)
    requires ReadsBack(fields, r) && TidyStatus(s) && NumbersKept(s) && NumbersIn(fields, s)
    requires TextsIn(fields, s, ModeText(s.processMode), IntText(s.lastRuntimeAt), IntText(s.lastValidationAt))
    ensures StatusOf(s0, r, s.activeRevision, s.configPath, s.metadataPath, s.events) == s
  {
    ModeReadsBack(s.processMode, s0.processMode);
    NumbersReadBack(fields, r, s, r.number(RollbackTarget, 0));
    TextsReadBack(fields, r, s, ModeText(s.processMode));
  }

  lemma TrailReadsBack(fields: Fields, events: seq<RuntimeEvent>)
    requires Get(fields, RuntimeEvents) == Some(EventsJson(events))
    requires TidyEvents(events) && EventNumbersKept(events) && |events| <= TRAIL_LIMIT
    ensures TrailFrom(Decoded(fields)) == events
  {
    DecodedTree(fields, RuntimeEvents);
    EventsSurvive(events);
  }

  lemma PathsReadBack(dir: string, fields: Fields, config: string, metadata: string)
    requires Get(fields, ConfigArtifactPath) == Some(Str(config)) && TidyText(config)
    requires Get(fields, MetadataArtifactPath) == Some(Str(metadata)) && TidyText(metadata)
    ensures ConfigPathFrom(dir, Decoded(fields)) == config && MetadataPathFrom(dir, Decoded(fields)) == metadata
  {
    TextReadsBack(fields, ConfigArtifactPath);
    TextReadsBack(fields, MetadataArtifactPath);
  }

  lemma ActiveReadsBack(fields: Fields, n: int)
    requires Get(fields, ActiveRevision) == Some(Int(n)) && Kept(n)
    ensures ActiveRevisionFrom(Decoded(fields)) == Some(n)
  {
    DecodedMember(fields, ActiveRevision);
    KeptIsReadBack(n);
  }

  /** Reading a persisted status back gives that status. */
  lemma RestoreInvertsPersist(dir: string, state: Fields, s: AgentStatus, s0: AgentStatus)
    requires TidyStatus(s) && NumbersKept(s) && TidyText(s.configPath) && TidyText(s.metadataPath)
    ensures
      var stored := Decoded(WithStatus(state, s));
      && ActiveRevisionFrom(stored) == Some(s.activeRevision)
      && ConfigPathFrom(dir, stored) == s.configPath && MetadataPathFrom(dir, stored) == s.metadataPath
      && StatusFrom(dir, s0, stored) == s
  {
    var fields := WithStatus(state, s);
    StatusMembers(state, PersistedOf(s));
    StatusTexts(state, PersistedOf(s));
    ActiveReadsBack(fields, s.activeRevision);
    PathsReadBack(dir, fields, s.configPath, s.metadataPath);
    TrailReadsBack(fields, s.events);
    DecodedReadsBack(fields);
    StatusReadsBack(fields, ReadsOf(Decoded(fields)), s, s0);
  }

  // ---- the status stays tidy ----

  /** The process runner's texts are trimmed, as those of the runners here are. */
  predicate TidyRunner(r: RunnerOutcome) {
    r.RunnerStarted? ==> Trimmed(r.processState) && Trimmed(r.attempt)
  }

  predicate TidyKind(e: RuntimeEvent) {
    && TidyText(e.kind) && Trimmed(e.status)
    && Trimmed(e.runtimeMode) && Trimmed(e.processMode) && Trimmed(e.processState)
  }

  lemma CompletedIsTidy(s: AgentStatus, e: RuntimeEvent, now: Time)
    requires TidyKind(e) && TidyText(s.runtimeMode) && TidyText(s.processState)
    ensures TidyEvent(Completed(s, e, now))
  {
    TrimSpaceIsTrimmed(e.message);
    ModeReadsBack(s.processMode, s.processMode);
  }

  lemma AppendKeepsTidy(a: Agent, e: RuntimeEvent, now: Time)
    requires TidyStatus(a.status) && TidyKind(e)
    ensures TidyStatus(AppendEvent(a, e, now).status)
  {
    CompletedIsTidy(a.status, e, now);
  }

  lemma FailureKeepsTidy(p: Progress, kind: string, rev: Revision, now: Time)
    requires TidyStatus(p.agent.status) && TidyText(kind)
    ensures TidyStatus(WithFailureEvent(p, kind, rev, now).agent.status)
  {
    if p.halt.Stopped? {
      AppendKeepsTidy(p.agent, Event(kind, FAILED, rev.revisionNumber, ErrorMessage(p.halt.error)), now);
    }
  }

  predicate TidyTransition(t: Transition) {
    TidyText(t.processState) && TidyText(t.state) && TidyText(t.attempt)
  }

  lemma PreparedIsTidy(s: AgentStatus, runner: RunnerOutcome, now: Time)
    requires TidyRunner(runner) && PrepareActiveConfig(s, runner, now).0.Some?
    ensures TidyTransition(PrepareActiveConfig(s, runner, now).0.value)
  {
  }

  lemma TrackedIsTidy(id: Identity, s: AgentStatus, rev: Revision, t: Transition)
    requires TidyStatus(s) && TidyTransition(t)
    ensures TidyStatus(TrackPrepared(id, TrackApplied(s, rev), rev, t))
  {
    TrimSpaceIsTrimmed(t.message);
  }

  lemma ValidationKeepsTidy(s: AgentStatus, status: string, message: string, at: Time)
    requires TidyStatus(s) && Trimmed(status)
    ensures TidyStatus(TrackValidation(s, status, message, at))
  {
    TrimSpaceIsTrimmed(message);
  }

  lemma SuccessKindsAreTidy(rev: Revision, t: Transition)
    ensures TidyKind(IntentEvent(rev, t)) && TidyKind(SuccessEvent(rev, t))
  {
  }

  lemma SuccessEventsAreTidy(a: Agent, rev: Revision, t: Transition, now: Time)
    requires TidyStatus(a.status)
    ensures TidyStatus(SuccessEvents(a, rev, t, now).status)
  {
    SuccessKindsAreTidy(rev, t);
    AppendKeepsTidy(a, IntentEvent(rev, t), now);
    var b := if a.status.processMode.Local? then AppendEvent(a, IntentEvent(rev, t), now) else a;
    AppendKeepsTidy(b, SuccessEvent(rev, t), now);
  }

  lemma SucceededIsTidy(id: Identity, a: Agent, rev: Revision, t: Transition, now: Time)
    requires TidyStatus(a.status) && TidyTransition(t)
    ensures TidyStatus(Succeeded(id, a, rev, t, now).status)
  {
    var tracked := a.(status := TrackPrepared(id, TrackApplied(a.status, rev), rev, t));
    TrackedIsTidy(id, a.status, rev, t);
    SuccessEventsAreTidy(tracked, rev, t, now);
    ValidationKeepsTidy(SuccessEvents(tracked, rev, t, now).status, "applied", "", now);
  }

  lemma UnpreparedIsTidy(rev: Revision, t: Option<Transition>)
    requires t.Some? ==> TidyTransition(t.value)
    ensures TidyKind(UnpreparedEvent(rev, t))
  {
    if t.Some? { ModeReadsBack(t.value.processMode, Local); }
  }

  lemma FinishKeepsTidy(id: Identity, p: Progress, rev: Revision, out: Outside)
    requires TidyStatus(p.agent.status) && TidyRunner(out.runner)
    ensures TidyStatus(Finish(id, p, rev, out).agent.status)
  {
    var (t, ok) := PrepareActiveConfig(p.agent.status, out.runner, out.now);
    if t.Some? { PreparedIsTidy(p.agent.status, out.runner, out.now); }
    if !ok {
      UnpreparedIsTidy(rev, t);
      AppendKeepsTidy(p.agent, UnpreparedEvent(rev, t), out.now);
    } else {
      var ready := p.(agent := Succeeded(id, p.agent, rev, t.value, out.now));
      SucceededIsTidy(id, p.agent, rev, t.value, out.now);
      PersistKeepsAgent(ready, out.faults);
      FailureKeepsTidy(Persist(ready, out.faults), "apply_failure", rev, out.now);
    }
  }

  lemma CheckedKeepsTidy(id: Identity, p: Progress, rev: Revision, out: Outside)
    requires TidyStatus(p.agent.status) && TidyRunner(out.runner)
    ensures TidyStatus(ApplyChecked(id, p, rev, out).agent.status)
  {
    if p.halt.Stopped? {
      FailureKeepsTidy(p, "dry_run_failure", rev, out.now);
    } else {
      var q := Activate(id, Stage(id, p, rev, out.faults), rev, out.faults);
      SwitchAgent(id, p, rev, out.faults);
      assert TidyStatus(q.agent.status);
      FailureKeepsTidy(q, "apply_failure", rev, out.now);
      FinishKeepsTidy(id, q, rev, out);
    }
  }

  lemma RefusalKeepsTidy(a: Agent, rev: Revision, e: AgentError, now: Time)
    requires TidyStatus(a.status)
    ensures TidyStatus(AppendFailure(a, "validation_failure", rev.revisionNumber, e, now).status)
  {
    AppendKeepsTidy(a, Event("validation_failure", FAILED, rev.revisionNumber, ErrorMessage(e)), now);
  }

  lemma ApplyKeepsTidy(c: Crypto, id: Identity, a: Agent, disk: Disk, rev: Revision, out: Outside)
    requires TidyStatus(a.status) && TidyRunner(out.runner)
    ensures TidyStatus(Apply(c, id, a, disk, rev, out).agent.status)
  {
    var refused := CheckRevision(c, id.nodeId, rev);
    if refused.Some? {
      RefusalKeepsTidy(a, rev, refused.value, out.now);
    } else {
      var p := Progress(Stored(a, rev), disk, DryRun(id, rev, out.faults(OnCandidate), out.dryRunFailure));
      CheckedKeepsTidy(id, p, rev, out);
    }
  }

  lemma OutcomeIsTidy(id: Identity, p: Progress, at: Time)
    requires TidyStatus(p.agent.status)
    ensures TidyStatus(PolledStatus(id, p, at))
  {
    ValidationKeepsTidy(p.agent.status, "applied", "", at);
    if p.halt.Stopped? {
      var message := ErrorMessage(p.halt.error);
      ValidationKeepsTidy(p.agent.status, FAILED, message, at);
      FailedIsTidy(TrackValidation(p.agent.status, FAILED, message, at), message, at, DryRunStatusFor(id, p.halt.error));
    }
  }

  lemma PollOutcome(c: Crypto, id: Identity, a: Agent, disk: Disk, rev: Revision, out: Outside, at: Time, p: Progress)
    requires p == Apply(c, id, a, disk, rev, out)
    ensures Poll(c, id, a, disk, rev, out, at).0.agent.status == PolledStatus(id, p, at)
  {
  }

  lemma PollKeepsTidy(c: Crypto, id: Identity, a: Agent, disk: Disk, rev: Revision, out: Outside, at: Time)
    requires TidyStatus(a.status) && TidyRunner(out.runner)
    ensures TidyStatus(Poll(c, id, a, disk, rev, out, at).0.agent.status)
  {
    ApplyKeepsTidy(c, id, a, disk, rev, out);
    var p := Apply(c, id, a, disk, rev, out);
    OutcomeIsTidy(id, p, at);
    PollOutcome(c, id, a, disk, rev, out, at, p);
  }

  lemma FailedIsTidy(s: AgentStatus, message: string, at: Time, dryRunStatus: string)
    requires TidyStatus(s) && TidyText(dryRunStatus)
    ensures TidyStatus(TrackRuntimeFailure(s, message, at, dryRunStatus))
  {
    TrimSpaceIsTrimmed(message);
  }

  /** Whatever state maps hold, what is read from them is trimmed. */
  ghost predicate TidyReader(read: Reader) {
    forall s, state :: TidyStatus(s) && read(s, state).Some? ==> TidyStatus(read(s, state).value)
  }

  ghost predicate TrimmedReads(r: Reads) {
    forall k :: Trimmed(r.text(k))
  }

  lemma ReadsAreTrimmed(state: Fields)
    ensures TrimmedReads(ReadsOf(state))
  {
    forall k ensures Trimmed(ReadsOf(state).text(k)) { TrimSpaceIsTrimmed(TextOf(state, k)); }
  }

  lemma StatusOfIsTidy(
    s: AgentStatus, r: Reads, active: int, configPath: string, metadataPath: string, trail: seq<RuntimeEvent>)
    requires TidyStatus(s) && TrimmedReads(r) && TidyEvents(trail) && |trail| <= TRAIL_LIMIT
    ensures TidyStatus(StatusOf(s, r, active, configPath, metadataPath, trail))
  {
  }

  lemma EventFromIsTidy(value: Json)
    ensures EventFrom(value).Some? ==> TidyEvent(EventFrom(value).value)
  {
    if value.Obj? { ReadsAreTrimmed(value.fields); }
  }

  lemma {:induction false} CollectedAreTidy(items: seq<Json>, read: Json -> Option<RuntimeEvent>)
    requires forall value :: read(value).Some? ==> TidyEvent(read(value).value)
    ensures TidyEvents(Collected(items, read))
  {
    if items != [] { CollectedAreTidy(items[..|items| - 1], read); }
  }

  lemma TrailIsTidy(state: Fields)
    ensures TidyEvents(TrailFrom(state)) && |TrailFrom(state)| <= TRAIL_LIMIT
  {
    forall value | EventFrom(value).Some? ensures TidyEvent(EventFrom(value).value) { EventFromIsTidy(value); }
    var items := GetArr(state, RuntimeEvents);
    if items.Some? { CollectedAreTidy(items.value, EventFrom); }
  }

  lemma ReaderIsTidy(dir: string, files: map<File, Content>, unreadable: set<File>)
    ensures TidyReader(ReaderOf(dir, files, unreadable))
  {
    forall s, state | TidyStatus(s) && ReaderOf(dir, files, unreadable)(s, state).Some?
      ensures TidyStatus(ReaderOf(dir, files, unreadable)(s, state).value)
    {
      ReadsAreTrimmed(state);
      TrailIsTidy(state);
      StatusOfIsTidy(
        s, ReadsOf(state), ActiveRevisionFrom(state).value, ConfigPathFrom(dir, state), MetadataPathFrom(dir, state),
        TrailFrom(state));
    }
  }

  lemma DegradedIsTidy(a: Agent, reason: string, now: Time)
    requires TidyStatus(a.status) && Trimmed("runtime_state_restore_failed:" + reason)
    ensures TidyStatus(Degraded(a, reason, now).status)
  {
    var message := "runtime_state_restore_failed:" + reason;
    var s := a.status.(runtimeState := PREPARE_FAILED, lastRuntimeAttempt := FAILED, lastRuntimeError := message,
                       lastRuntimeAt := now);
    AppendKeepsTidy(a.(status := s), Event("runtime_state_restore_degraded", "degraded", 0, message), now);
  }

  lemma RestoredIsTidy(a: Agent, s: AgentStatus, history: seq<RuntimeEvent>, message: string, now: Time)
    requires TidyStatus(s)
    ensures TidyStatus(
      AppendEvent(a.(status := s, history := history), RestoreEvent(s.activeRevision, message), now).status)
  {
    AppendKeepsTidy(a.(status := s, history := history), RestoreEvent(s.activeRevision, message), now);
  }

  lemma CompletedStatusIsTidy(s: AgentStatus, earlier: seq<RuntimeEvent>, dryRuns: bool)
    requires TidyStatus(s) && TidyEvents(earlier)
    ensures TidyStatus(CompletedStatus(s, earlier, dryRuns))
  {
  }

  lemma MetadataKeepsTidy(id: Identity, a: Agent, metadata: Reading, read: Reader, now: Time)
    requires TidyStatus(a.status) && TidyReader(read)
    ensures TidyStatus(FromMetadata(id, a, metadata, read, now).status)
  {
    match metadata
    case Absent =>
    case Unreadable => DegradedIsTidy(a, "active_metadata_unreadable", now);
    case Malformed => DegradedIsTidy(a, "active_metadata_malformed", now);
    case Holds(state) =>
      match read(a.status, state) {
        case None => DegradedIsTidy(a, "active_metadata_incomplete", now);
        case Some(s) =>
          CompletedStatusIsTidy(s, a.status.events, id.DryRuns());
          RestoredIsTidy(
            a, CompletedStatus(s, a.status.events, id.DryRuns()), a.status.events + s.events, FROM_METADATA, now);
      }
  }

  lemma RestoreKeepsTidy(id: Identity, a: Agent, state: Reading, metadata: Reading, read: Reader, now: Time)
    requires TidyStatus(a.status) && TidyReader(read)
    ensures TidyStatus(Restore(id, a, state, metadata, read, now).status)
  {
    match state
    case Absent => MetadataKeepsTidy(id, a, metadata, read, now);
    case Unreadable =>
      DegradedIsTidy(a, "state_unreadable", now);
      MetadataKeepsTidy(id, Degraded(a, "state_unreadable", now), metadata, read, now);
    case Malformed =>
      DegradedIsTidy(a, "malformed_state", now);
      MetadataKeepsTidy(id, Degraded(a, "malformed_state", now), metadata, read, now);
    case Holds(fields) =>
      match read(a.status, fields) {
        case Some(s) => RestoredIsTidy(a, s, s.events, FROM_STATE, now);
        case None =>
          DegradedIsTidy(a, "incomplete_state", now);
          MetadataKeepsTidy(id, Degraded(a, "incomplete_state", now), metadata, read, now);
      }
  }

  lemma InitialIsTidy(id: Identity)
    ensures TidyStatus(InitialStatus(id)) && TidyText(id.RuntimeModeOf())
  {
  }

  lemma NewServiceIsTidy(id: Identity, files: map<File, Content>, unreadable: set<File>, now: Time)
    ensures TidyStatus(NewService(id, files, unreadable, now).status)
  {
    InitialIsTidy(id);
    ReaderIsTidy(id.Dir(), files, unreadable);
    RestoreKeepsTidy(
      id, Agent(InitialStatus(id), map[], []), ReadFile(files, unreadable, StateFile, Absent),
      ReadFile(files, unreadable, ActiveMetadataFile, Malformed), ReaderOf(id.Dir(), files, unreadable), now);
  }

  // ---- restarting after a successful apply ----

  /** The state file holds this status, over whatever it held before. */
  ghost predicate HoldsStatus(files: map<File, Content>, s: AgentStatus) {
    exists state :: StateFile in files && files[StateFile] == ToText(WithStatus(state, s))
  }

  lemma PersistedHolds(p: Progress, faults: Faults)
    requires Persist(p, faults).halt.Running?
    ensures HoldsStatus(Persist(p, faults).disk.files, p.agent.status)
  {
    var content := ContentOf(p.disk, StateFile);
    var state := if content.Document? then FromText(content.members) else map[];
    assert Persist(p, faults).disk.files[StateFile] == ToText(WithStatus(state, p.agent.status));
  }

  lemma FinishedHolds(id: Identity, p: Progress, rev: Revision, out: Outside)
    requires Finish(id, p, rev, out).halt.Running?
    ensures
      var q := Finish(id, p, rev, out);
      && HoldsStatus(q.disk.files, q.agent.status)
      && q.agent.status.configPath == Name(id.Dir(), ActiveConfigFile)
      && q.agent.status.metadataPath == Name(id.Dir(), ActiveMetadataFile)
  {
    var (t, _) := PrepareActiveConfig(p.agent.status, out.runner, out.now);
    var ready := p.(agent := Succeeded(id, p.agent, rev, t.value, out.now));
    SucceededStatus(id, p.agent, rev, t.value, out.now);
    PersistKeepsAgent(ready, out.faults);
    PersistedHolds(ready, out.faults);
  }

  lemma AppliedHolds(c: Crypto, id: Identity, a: Agent, disk: Disk, rev: Revision, out: Outside)
    requires Apply(c, id, a, disk, rev, out).halt.Running?
    ensures id.Dir() != "" && GetObj(BundleFields(rev), Config).Some?
    ensures
      var q := Apply(c, id, a, disk, rev, out);
      && HoldsStatus(q.disk.files, q.agent.status)
      && q.agent.status.configPath == Name(id.Dir(), ActiveConfigFile)
      && q.agent.status.metadataPath == Name(id.Dir(), ActiveMetadataFile)
  {
    var p := Progress(Stored(a, rev), disk, DryRun(id, rev, out.faults(OnCandidate), out.dryRunFailure));
    CheckedHolds(id, p, rev, out);
  }

  lemma CheckedHolds(id: Identity, p: Progress, rev: Revision, out: Outside)
    requires ApplyChecked(id, p, rev, out).halt.Running?
    ensures id.Dir() != "" && GetObj(BundleFields(rev), Config).Some?
    ensures
      var q := ApplyChecked(id, p, rev, out);
      && HoldsStatus(q.disk.files, q.agent.status)
      && q.agent.status.configPath == Name(id.Dir(), ActiveConfigFile)
      && q.agent.status.metadataPath == Name(id.Dir(), ActiveMetadataFile)
  {
    StageRuns(id, p, rev, out.faults);
    FinishedHolds(id, Activate(id, Stage(id, p, rev, out.faults), rev, out.faults), rev, out);
  }

  lemma StageRuns(id: Identity, p: Progress, rev: Revision, faults: Faults)
    ensures Activate(id, Stage(id, p, rev, faults), rev, faults).halt.Running? ==>
      id.Dir() != "" && GetObj(BundleFields(rev), Config).Some?
  {
  }

  lemma ReachedIsWritten(written: Written, disk: Disk, f: File)
    requires Sound(written, disk) && disk.attempts != [] && Stamp(disk, f) == |disk.attempts|
    ensures f in disk.files && written(f, disk.attempts[|disk.attempts| - 1], disk.files[f])
  {
  }

  /** The last attempt has replaced the active files by valid JSON. */
  lemma ActiveFilesAreJson(dir: string, disk: Disk, rev: Revision)
    requires DiskOk(dir, disk) && disk.attempts != [] && disk.attempts[|disk.attempts| - 1] == rev
    requires Reached(disk, 5) && GetObj(BundleFields(rev), Config).Some?
    ensures ActiveConfigFile in disk.files && disk.files[ActiveConfigFile].Document?
    ensures ActiveMetadataFile in disk.files && disk.files[ActiveMetadataFile].Document?
  {
    assert Stamp(disk, ActiveConfigFile) == |disk.attempts| == Stamp(disk, ActiveMetadataFile);
    ReachedIsWritten(WrittenIn(dir), disk, ActiveConfigFile);
    ReachedIsWritten(WrittenIn(dir), disk, ActiveMetadataFile);
    ConfigIsJson(rev);
    MetadataIsJson(dir, rev);
  }

  lemma ConfigIsJson(rev: Revision)
    requires GetObj(BundleFields(rev), Config).Some?
    ensures ConfigContent(rev).Document?
  {
  }

  lemma MetadataIsJson(dir: string, rev: Revision)
    ensures MetadataContent(dir, rev).Document?
  {
  }

  lemma NameIsTidy(dir: string, f: File)
    requires dir != "" && Trimmed(dir) && InChain(f)
    ensures TidyText(Name(dir, f))
  {
    assert Name(dir, f)[0] == dir[0] && Name(dir, f)[|Name(dir, f)| - 1] == 'n';
  }

  lemma JsonFileIsValid(dir: string, files: map<File, Content>, f: File)
    requires f in files && files[f].Document?
    ensures ValidJsonFile(dir, files, {}, Name(dir, f))
  {
  }

  lemma TextIsDecoded(fields: Fields)
    ensures FromText(ToText(fields).members) == Decoded(fields)
  {
    forall k | k in fields ensures FromText(ToText(fields).members)[k] == Decoded(fields)[k] { DecodedMember(fields, k); }
    assert Decoded(fields).Keys == fields.Keys by {
      forall k ensures k in Decoded(fields) <==> k in fields { DecodedMember(fields, k); }
    }
  }

  lemma HeldStatusIsRead(id: Identity, files: map<File, Content>, s: AgentStatus, s0: AgentStatus)
    requires HoldsStatus(files, s) && TidyStatus(s) && NumbersKept(s) && s.activeRevision > 0
    requires s.configPath == Name(id.Dir(), ActiveConfigFile) && TidyText(s.configPath)
    requires s.metadataPath == Name(id.Dir(), ActiveMetadataFile) && TidyText(s.metadataPath)
    requires ActiveConfigFile in files && files[ActiveConfigFile].Document?
    requires ActiveMetadataFile in files && files[ActiveMetadataFile].Document?
    ensures
      var reading := ReadFile(files, {}, StateFile, Absent);
      reading.Holds? && ReaderOf(id.Dir(), files, {})(s0, reading.state) == Some(s)
  {
    var state :| StateFile in files && files[StateFile] == ToText(WithStatus(state, s));
    var stored := Decoded(WithStatus(state, s));
    TextIsDecoded(WithStatus(state, s));
    RestoreInvertsPersist(id.Dir(), state, s, s0);
    JsonFileIsValid(id.Dir(), files, ActiveConfigFile);
    JsonFileIsValid(id.Dir(), files, ActiveMetadataFile);
    ReadsStatus(id.Dir(), files, s, s0, stored);
  }

  lemma ReadsStatus(dir: string, files: map<File, Content>, s: AgentStatus, s0: AgentStatus, stored: Fields)
    requires ActiveRevisionFrom(stored) == Some(s.activeRevision) && s.activeRevision > 0
    requires ConfigPathFrom(dir, stored) == s.configPath && MetadataPathFrom(dir, stored) == s.metadataPath
    requires ValidJsonFile(dir, files, {}, s.configPath) && ValidJsonFile(dir, files, {}, s.metadataPath)
    requires StatusFrom(dir, s0, stored) == s
    ensures ReaderOf(dir, files, {})(s0, stored) == Some(s)
  {
  }

  /** The agent that a restart makes of a persisted status. */
  function RestoredAgent(id: Identity, s: AgentStatus, now: Time): Agent {
    WithIdentityModes(id, FromState(Agent(InitialStatus(id), map[], []), s, now))
  }

  lemma OpenedFromState(id: Identity, state: Reading, metadata: Reading, read: Reader, s: AgentStatus, now: Time)
    requires id.Dir() != "" && state.Holds? && read(InitialStatus(id), state.state) == Some(s)
    ensures Opened(id, Agent(InitialStatus(id), map[], []), state, metadata, read, now) == RestoredAgent(id, s, now)
  {
  }

  lemma DirIsTrimmed(id: Identity)
    ensures Trimmed(id.Dir())
  {
    TrimSpaceIsTrimmed(id.stateDir);
  }

  lemma AppliedIsPositive(c: Crypto, id: Identity, a: Agent, disk: Disk, rev: Revision, q: Progress)
    requires AppliedWell(c, id, a, disk, rev, q) && q.halt.Running?
    ensures q.agent.status.activeRevision > 0
    ensures DiskOk(id.Dir(), q.disk) && Reached(q.disk, 5) && q.disk.attempts != []
    ensures q.disk.attempts[|q.disk.attempts| - 1] == rev
  {
  }

  lemma RestartsAs(id: Identity, disk: Disk, s: AgentStatus, rev: Revision, now: Time)
    requires DiskOk(id.Dir(), disk) && Reached(disk, 5) && GetObj(BundleFields(rev), Config).Some?
    requires disk.attempts != [] && disk.attempts[|disk.attempts| - 1] == rev
    requires HoldsStatus(disk.files, s) && TidyStatus(s) && NumbersKept(s) && s.activeRevision > 0
    requires s.configPath == Name(id.Dir(), ActiveConfigFile) && s.metadataPath == Name(id.Dir(), ActiveMetadataFile)
    requires id.Dir() != ""
    ensures NewService(id, disk.files, {}, now) == RestoredAgent(id, s, now)
  {
    DirIsTrimmed(id);
    NameIsTidy(id.Dir(), ActiveConfigFile);
    NameIsTidy(id.Dir(), ActiveMetadataFile);
    ActiveFilesAreJson(id.Dir(), disk, rev);
    HeldStatusIsRead(id, disk.files, s, InitialStatus(id));
    OpenedFromState(
      id, ReadFile(disk.files, {}, StateFile, Absent), ReadFile(disk.files, {}, ActiveMetadataFile, Malformed),
      ReaderOf(id.Dir(), disk.files, {}), s, now);
  }

  /** r has the status s, with the modes of the identity, and one restore event more. */
  predicate Continues(id: Identity, s: AgentStatus, r: Agent) {
    && |r.history| == |s.events| + 1 && s.events <= r.history
    && r.history[|s.events|].kind == "runtime_state_restore"
    && r.history[|s.events|].revisionNumber == s.activeRevision
    && r.status == s.(events := LastEvents(r.history), processMode := NormalizeProcessMode(id.processMode),
                      runtimeMode := id.RuntimeModeOf())
  }

  lemma RestoredContinues(id: Identity, s: AgentStatus, now: Time)
    requires |s.events| <= TRAIL_LIMIT
    ensures Continues(id, s, RestoredAgent(id, s, now))
  {
    var e := Completed(s, RestoreEvent(s.activeRevision, FROM_STATE), now);
    assert RestoredAgent(id, s, now).history == s.events + [e];
  }

  lemma {:induction false} RunKeepsTidy(c: Crypto, id: Identity, events: seq<LifeEvent>)
    requires forall i :: 0 <= i < |events| && events[i].Polled? ==> TidyRunner(events[i].out.runner)
    ensures TidyStatus(LifeRun(c, id, events).agent.status)
  {
    if events == [] {
      InitialIsTidy(Identity("", "", "", "", ""));
    } else {
      var front, life := events[..|events| - 1], LifeRun(c, id, events[..|events| - 1]);
      RunKeepsTidy(c, id, front);
      match events[|events| - 1]
      case Restarted(unreadable, now) => NewServiceIsTidy(id, life.disk.files, unreadable, now);
      case Polled(rev, out, at) => PollKeepsTidy(c, id, life.agent, life.disk, rev, out, at);
    }
  }
}
