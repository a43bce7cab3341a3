/** The numbers of the agent's status are ones that JSON text gives back: they come
    from revisions, or from files that were decoded. */
module KeptNumbers {
  import opened Text
  import opened Json
  import opened ConfigBundle
  import opened AgentCheck
  import opened DecodingTheorems
  import opened RenderTheorems
  import opened Agent
  import opened CrashConsistency
  import opened Restoration

  /** The numbers of the revision itself, outside of its bundle. */
  predicate KeptRevision(rev: Revision) {
    Kept(rev.revisionNumber) && Kept(rev.rollbackTarget)
  }

  lemma SmallIsKept(n: int)
    requires -(TWO53 as int) < n < TWO53
    ensures Kept(n)
  {
    InteroperableIntSurvives(n);
  }

  // ---- applying ----

  lemma AppendKeepsNumbers(a: Agent, e: RuntimeEvent, now: Time)
    requires NumbersKept(a.status) && Kept(e.revisionNumber)
    ensures NumbersKept(AppendEvent(a, e, now).status)
  {
  }

  lemma FailureKeepsNumbers(p: Progress, kind: string, rev: Revision, now: Time)
    requires NumbersKept(p.agent.status) && KeptRevision(rev)
    ensures NumbersKept(WithFailureEvent(p, kind, rev, now).agent.status)
  {
    if p.halt.Stopped? {
      AppendKeepsNumbers(p.agent, Event(kind, FAILED, rev.revisionNumber, ErrorMessage(p.halt.error)), now);
    }
  }

  lemma TrackedKeepsNumbers(id: Identity, s: AgentStatus, rev: Revision, t: Transition)
    requires NumbersKept(s) && KeptRevision(rev)
    ensures NumbersKept(TrackPrepared(id, TrackApplied(s, rev), rev, t))
  {
  }

  lemma SuccessEventsKeepNumbers(a: Agent, rev: Revision, t: Transition, now: Time)
    requires NumbersKept(a.status) && KeptRevision(rev)
    ensures NumbersKept(SuccessEvents(a, rev, t, now).status)
  {
    AppendKeepsNumbers(a, IntentEvent(rev, t), now);
    var b := if a.status.processMode.Local? then AppendEvent(a, IntentEvent(rev, t), now) else a;
    AppendKeepsNumbers(b, SuccessEvent(rev, t), now);
  }

  lemma SucceededKeepsNumbers(id: Identity, a: Agent, rev: Revision, t: Transition, now: Time)
    requires NumbersKept(a.status) && KeptRevision(rev)
    ensures NumbersKept(Succeeded(id, a, rev, t, now).status)
  {
    var tracked := a.(status := TrackPrepared(id, TrackApplied(a.status, rev), rev, t));
    TrackedKeepsNumbers(id, a.status, rev, t);
    SuccessEventsKeepNumbers(tracked, rev, t, now);
  }

  lemma FinishKeepsNumbers(id: Identity, p: Progress, rev: Revision, out: Outside)
    requires NumbersKept(p.agent.status) && KeptRevision(rev)
    ensures NumbersKept(Finish(id, p, rev, out).agent.status)
  {
    var (t, ok) := PrepareActiveConfig(p.agent.status, out.runner, out.now);
    if !ok {
      AppendKeepsNumbers(p.agent, UnpreparedEvent(rev, t), out.now);
    } else {
      var ready := p.(agent := Succeeded(id, p.agent, rev, t.value, out.now));
      SucceededKeepsNumbers(id, p.agent, rev, t.value, out.now);
      PersistKeepsAgent(ready, out.faults);
      FailureKeepsNumbers(Persist(ready, out.faults), "apply_failure", rev, out.now);
    }
  }

  lemma CheckedKeepsNumbers(id: Identity, p: Progress, rev: Revision, out: Outside)
    requires NumbersKept(p.agent.status) && KeptRevision(rev)
    ensures NumbersKept(ApplyChecked(id, p, rev, out).agent.status)
  {
    if p.halt.Stopped? {
      FailureKeepsNumbers(p, "dry_run_failure", rev, out.now);
    } else {
      var q := Activate(id, Stage(id, p, rev, out.faults), rev, out.faults);
      SwitchAgent(id, p, rev, out.faults);
      assert NumbersKept(q.agent.status);
      FailureKeepsNumbers(q, "apply_failure", rev, out.now);
      FinishKeepsNumbers(id, q, rev, out);
    }
  }

  lemma ApplyKeepsNumbers(c: Crypto, id: Identity, a: Agent, disk: Disk, rev: Revision, out: Outside)
    requires NumbersKept(a.status) && KeptRevision(rev)
    ensures NumbersKept(Apply(c, id, a, disk, rev, out).agent.status)
  {
    var refused := CheckRevision(c, id.nodeId, rev);
    if refused.Some? {
      AppendKeepsNumbers(
        a, Event("validation_failure", FAILED, rev.revisionNumber, ErrorMessage(refused.value)), out.now);
    } else {
      var p := Progress(Stored(a, rev), disk, DryRun(id, rev, out.faults(OnCandidate), out.dryRunFailure));
      CheckedKeepsNumbers(id, p, rev, out);
    }
  }

  lemma OutcomeKeepsNumbers(id: Identity, p: Progress, at: Time)
    requires NumbersKept(p.agent.status)
    ensures NumbersKept(PolledStatus(id, p, at))
  {
  }

  lemma PollKeepsNumbers(c: Crypto, id: Identity, a: Agent, disk: Disk, rev: Revision, out: Outside, at: Time)
    requires NumbersKept(a.status) && KeptRevision(rev)
    ensures NumbersKept(Poll(c, id, a, disk, rev, out, at).0.agent.status)
  {
    ApplyKeepsNumbers(c, id, a, disk, rev, out);
    var p := Apply(c, id, a, disk, rev, out);
    OutcomeKeepsNumbers(id, p, at);
    PollOutcome(c, id, a, disk, rev, out, at, p);
  }

  // ---- restoring ----

  /** Whatever is read as a number from decoded members is one that text gives back. */
  ghost predicate KeptReads(r: Reads) {
    forall k, fallback :: Kept(fallback) ==> Kept(r.number(k, fallback))
  }

  lemma ReadsAreKept(state: Fields)
    requires TameFields(state)
    ensures KeptReads(ReadsOf(state))
  {
    forall k, fallback | Kept(fallback) ensures Kept(ReadsOf(state).number(k, fallback)) {
      if NumberAsInt(Get(state, k)).Some? { NumberMember(state[k]); }
    }
  }

  lemma StatusOfKeepsNumbers(
    s: AgentStatus, r: Reads, active: int, configPath: string, metadataPath: string, trail: seq<RuntimeEvent>)
    requires KeptReads(r) && Kept(active) && EventNumbersKept(trail)
    ensures NumbersKept(StatusOf(s, r, active, configPath, metadataPath, trail))
  {
    SmallIsKept(0);
  }

  lemma {:induction false} CollectedNumbersKept(items: seq<Json>, read: Json -> Option<RuntimeEvent>)
    requires forall i :: 0 <= i < |items| && read(items[i]).Some? ==> Kept(read(items[i]).value.revisionNumber)
    ensures EventNumbersKept(Collected(items, read))
  {
    if items != [] { CollectedNumbersKept(items[..|items| - 1], read); }
  }

  lemma TrailNumbersKept(state: Fields)
    requires TameFields(state)
    ensures EventNumbersKept(TrailFrom(state))
  {
    TameMember(state, RuntimeEvents);
    var found := GetArr(state, RuntimeEvents);
    if found.Some? {
      var items := found.value;
      forall i | 0 <= i < |items| && EventFrom(items[i]).Some?
        ensures Kept(EventFrom(items[i]).value.revisionNumber)
      {
        ReadsAreKept(items[i].fields);
        SmallIsKept(0);
      }
      CollectedNumbersKept(items, EventFrom);
    }
  }

  lemma ActiveIsKept(state: Fields)
    requires TameFields(state) && ActiveRevisionFrom(state).Some?
    ensures Kept(ActiveRevisionFrom(state).value)
  {
    if NumberAsInt(Get(state, ActiveRevision)).Some? {
      NumberMember(state[ActiveRevision]);
    } else {
      NumberMember(state[RevisionNumber]);
    }
  }

  /** What is restored from this reading has numbers that text gives back. */
  ghost predicate KeptReading(read: Reader, reading: Reading) {
    reading.Holds? ==>
      forall s :: read(s, reading.state).Some? ==> NumbersKept(read(s, reading.state).value)
  }

  lemma ReadingIsKept(dir: string, files: map<File, Content>, unreadable: set<File>, reading: Reading)
    requires reading.Holds? ==> TameFields(reading.state)
    ensures KeptReading(ReaderOf(dir, files, unreadable), reading)
  {
    if reading.Holds? {
      var state := reading.state;
      var read := ReaderOf(dir, files, unreadable);
      forall s | read(s, state).Some? ensures NumbersKept(read(s, state).value) {
        ReadsAreKept(state);
        TrailNumbersKept(state);
        ActiveIsKept(state);
        StatusOfKeepsNumbers(
          s, ReadsOf(state), ActiveRevisionFrom(state).value, ConfigPathFrom(dir, state), MetadataPathFrom(dir, state),
          TrailFrom(state));
      }
    }
  }

  lemma DegradedKeepsNumbers(a: Agent, reason: string, now: Time)
    requires NumbersKept(a.status)
    ensures NumbersKept(Degraded(a, reason, now).status)
  {
    SmallIsKept(0);
  }

  lemma RestoredKeepsNumbers(a: Agent, s: AgentStatus, history: seq<RuntimeEvent>, message: string, now: Time)
    requires NumbersKept(s)
    ensures NumbersKept(
      AppendEvent(a.(status := s, history := history), RestoreEvent(s.activeRevision, message), now).status)
  {
    AppendKeepsNumbers(a.(status := s, history := history), RestoreEvent(s.activeRevision, message), now);
  }

  lemma CompletedKeepsNumbers(s: AgentStatus, earlier: seq<RuntimeEvent>, dryRuns: bool)
    requires NumbersKept(s) && EventNumbersKept(earlier)
    ensures NumbersKept(CompletedStatus(s, earlier, dryRuns))
  {
  }

  lemma MetadataKeepsNumbers(id: Identity, a: Agent, metadata: Reading, read: Reader, now: Time)
    requires NumbersKept(a.status) && KeptReading(read, metadata)
    ensures NumbersKept(FromMetadata(id, a, metadata, read, now).status)
  {
    match metadata
    case Absent =>
    case Unreadable => DegradedKeepsNumbers(a, "active_metadata_unreadable", now);
    case Malformed => DegradedKeepsNumbers(a, "active_metadata_malformed", now);
    case Holds(state) =>
      match read(a.status, state) {
        case None => DegradedKeepsNumbers(a, "active_metadata_incomplete", now);
        case Some(s) =>
          CompletedKeepsNumbers(s, a.status.events, id.DryRuns());
          RestoredKeepsNumbers(
            a, CompletedStatus(s, a.status.events, id.DryRuns()), a.status.events + s.events, FROM_METADATA, now);
      }
  }

  lemma RestoreKeepsNumbers(id: Identity, a: Agent, state: Reading, metadata: Reading, read: Reader, now: Time)
    requires NumbersKept(a.status) && KeptReading(read, state) && KeptReading(read, metadata)
    ensures NumbersKept(Restore(id, a, state, metadata, read, now).status)
  {
    match state
    case Absent => MetadataKeepsNumbers(id, a, metadata, read, now);
    case Unreadable =>
      DegradedKeepsNumbers(a, "state_unreadable", now);
      MetadataKeepsNumbers(id, Degraded(a, "state_unreadable", now), metadata, read, now);
    case Malformed =>
      DegradedKeepsNumbers(a, "malformed_state", now);
      MetadataKeepsNumbers(id, Degraded(a, "malformed_state", now), metadata, read, now);
    case Holds(fields) =>
      match read(a.status, fields) {
        case Some(s) => RestoredKeepsNumbers(a, s, s.events, FROM_STATE, now);
        case None =>
          DegradedKeepsNumbers(a, "incomplete_state", now);
          MetadataKeepsNumbers(id, Degraded(a, "incomplete_state", now), metadata, read, now);
      }
  }

  lemma InitialNumbersKept(id: Identity)
    ensures NumbersKept(InitialStatus(id))
  {
    SmallIsKept(0);
  }

  lemma ProperTextIsTame(members: map<Key, Doc>)
    requires ProperText(members)
    ensures TameFields(FromText(members))
  {
    forall k | k in members ensures Tame(Unmarshal(members[k])) {
      DecodedIsWellFormed(members[k]);
      NoIntsAfterDecoding(members[k]);
    }
  }

  /** The files that a restart reads hold JSON text, as apply wrote it. */
  lemma FileIsTame(dir: string, disk: Disk, unreadable: set<File>, f: File, ifEmpty: Reading)
    requires DiskOk(dir, disk) && (f.StateFile? || f.ActiveMetadataFile?) && !ifEmpty.Holds?
    ensures
      var reading := ReadFile(disk.files, unreadable, f, ifEmpty);
      reading.Holds? ==> TameFields(reading.state)
  {
    if f in disk.files {
      SoundAt(WrittenIn(dir), disk, f);
      var rev := disk.attempts[disk.stamps[f] - 1];
      MetadataIsProper(dir, rev);
      if disk.files[f].Document? { ProperTextIsTame(disk.files[f].members); }
    }
  }

  lemma MetadataIsProper(dir: string, rev: Revision)
    ensures MetadataContent(dir, rev).Document? && ProperText(MetadataContent(dir, rev).members)
  {
    TextIsProper(MetadataFields(dir, rev));
  }

  lemma NewServiceKeepsNumbers(id: Identity, disk: Disk, unreadable: set<File>, now: Time)
    requires DiskOk(id.Dir(), disk)
    ensures NumbersKept(NewService(id, disk.files, unreadable, now).status)
  {
    var state := ReadFile(disk.files, unreadable, StateFile, Absent);
    var metadata := ReadFile(disk.files, unreadable, ActiveMetadataFile, Malformed);
    InitialNumbersKept(id);
    FileIsTame(id.Dir(), disk, unreadable, StateFile, Absent);
    FileIsTame(id.Dir(), disk, unreadable, ActiveMetadataFile, Malformed);
    ReadingIsKept(id.Dir(), disk.files, unreadable, state);
    ReadingIsKept(id.Dir(), disk.files, unreadable, metadata);
    RestoreKeepsNumbers(
      id, Agent(InitialStatus(id), map[], []), state, metadata, ReaderOf(id.Dir(), disk.files, unreadable), now);
  }

  // ---- runs ----

  /** Every polled revision has numbers that text gives back. */
  predicate AllKept(events: seq<LifeEvent>) {
    forall i :: 0 <= i < |events| && events[i].Polled? ==> KeptRevision(events[i].rev)
  }

  lemma {:induction false} RunKeepsNumbers(c: Crypto, id: Identity, events: seq<LifeEvent>)
    requires AllReceived(events) && AllKept(events)
    ensures NumbersKept(LifeRun(c, id, events).agent.status)
  {
    if events == [] {
      InitialNumbersKept(Identity("", "", "", "", ""));
    } else {
      var front, life := events[..|events| - 1], LifeRun(c, id, events[..|events| - 1]);
      RunKeepsNumbers(c, id, front);
      match events[|events| - 1]
      case Restarted(unreadable, now) =>
        RunKeepsDisk(c, id, front);
        NewServiceKeepsNumbers(id, life.disk, unreadable, now);
      case Polled(rev, out, at) => PollKeepsNumbers(c, id, life.agent, life.disk, rev, out, at);
    }
  }
}
