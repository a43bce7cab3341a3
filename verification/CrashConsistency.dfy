/** What the state directory holds after any run of applies, failed operations,
    crashes between any two operations, and restarts. */
module CrashConsistency {
  import opened Text
  import opened Json
  import opened ConfigBundle
  import opened AgentCheck
  import opened Agent
  import opened DecodingTheorems

  // ---- the invariant ----

  predicate InChain(f: File) {
    !f.RevisionConfigFile? && !f.RevisionMetadataFile?
  }

  /** The order in which an attempt replaces the files of the switch. */
  function Rank(f: File): nat
    requires InChain(f)
  {
    match f
    case StagedConfigFile => 0
    case StagedMetadataFile => 1
    case ActiveMetadataFile => 2
    case ActiveConfigFile => 3
    case StateFile => 4
  }

  /** Staged config >= staged metadata >= active metadata >= active config >= state,
      by the attempt that last wrote each. */
  ghost predicate Chained(disk: Disk) {
    && (forall f: File :: Stamp(disk, f) <= |disk.attempts|)
    && (forall f, g :: InChain(f) && InChain(g) && Rank(f) <= Rank(g) ==> Stamp(disk, g) <= Stamp(disk, f))
  }

  /** The latest attempt has replaced the first j files of the switch. */
  ghost predicate Reached(disk: Disk, j: nat) {
    forall f :: InChain(f) && Rank(f) < j ==> Stamp(disk, f) == |disk.attempts|
  }

  predicate StateNames(dir: string, members: map<Key, Doc>, rev: Revision) {
    && ActiveRevision in members && members[ActiveRevision] == DocNumber(Whole(rev.revisionNumber))
    && ConfigArtifactPath in members && members[ConfigArtifactPath] == DocString(Name(dir, ActiveConfigFile))
    && MetadataArtifactPath in members && members[MetadataArtifactPath] == DocString(Name(dir, ActiveMetadataFile))
  }

  /** Members as they stand in JSON text. */
  predicate ProperText(members: map<Key, Doc>) {
    forall k :: k in members ==> ProperDoc(members[k])
  }

  lemma TextIsProper(fields: Fields)
    ensures ProperText(ToText(fields).members)
  {
    forall k | k in fields ensures ProperDoc(Marshal(fields[k])) { MarshalIsProper(fields[k]); }
  }

  /** content is what an attempt with rev writes to the file. */
  predicate WrittenFor(dir: string, f: File, rev: Revision, content: Content) {
    match f
    case RevisionConfigFile(n) => n == rev.revisionNumber && content == ConfigContent(rev)
    case RevisionMetadataFile(n) => n == rev.revisionNumber && content == MetadataContent(dir, rev)
    case StagedConfigFile => content == ConfigContent(rev)
    case StagedMetadataFile => content == MetadataContent(dir, rev)
    case ActiveMetadataFile => content == MetadataContent(dir, rev)
    case ActiveConfigFile => content == ConfigContent(rev)
    case StateFile => content.Document? && StateNames(dir, content.members, rev) && ProperText(content.members)
  }

  /** What may be claimed of a file, its last writer's revision and its content. */
  type Written = (File, Revision, Content) -> bool

  function WrittenIn(dir: string): Written {
    (f, rev, content) => WrittenFor(dir, f, rev, content)
  }

  /** Every file is what its last writer wrote. */
  ghost predicate Sound(written: Written, disk: Disk) {
    && disk.files.Keys == disk.stamps.Keys
    && (forall f :: f in disk.files ==>
          && 1 <= disk.stamps[f] <= |disk.attempts| && (f, disk.stamps[f]) in disk.writes
          && written(f, disk.attempts[disk.stamps[f] - 1], disk.files[f]))
    && (forall f, a :: (f, a) in disk.writes ==> 1 <= a <= |disk.attempts|)
  }

  /** An attempt replaces a file of the switch only after those before it. */
  ghost predicate WritesOrdered(disk: Disk) {
    forall f, g, a :: InChain(f) && InChain(g) && Rank(f) <= Rank(g) && (g, a) in disk.writes ==> (f, a) in disk.writes
  }

  ghost predicate DiskOk(dir: string, disk: Disk) {
    Chained(disk) && Sound(WrittenIn(dir), disk) && WritesOrdered(disk)
  }

  predicate Extends(before: Disk, now: Disk) {
    before.attempts <= now.attempts && before.writes <= now.writes
  }

  // ---- single operations ----

  lemma ReplacedKeepsOrder(disk: Disk, f: File, content: Content)
    requires Chained(disk) && (InChain(f) ==> Reached(disk, Rank(f)))
    ensures Chained(Replaced(disk, f, content))
    ensures forall j: nat :: Reached(disk, j) ==> Reached(Replaced(disk, f, content), j)
    ensures InChain(f) ==> Reached(Replaced(disk, f, content), Rank(f) + 1)
  {
    var now := Replaced(disk, f, content);
    assert forall g: File :: g != f ==> Stamp(now, g) == Stamp(disk, g);
    assert Stamp(now, f) == |disk.attempts|;
  }

  lemma ReplacedKeepsWriteOrder(disk: Disk, f: File, content: Content)
    requires WritesOrdered(disk) && (InChain(f) ==> Reached(disk, Rank(f)))
    requires forall g :: g in disk.stamps ==> (g, disk.stamps[g]) in disk.writes
    requires disk.attempts != []
    ensures WritesOrdered(Replaced(disk, f, content))
  {
    var now := Replaced(disk, f, content);
    forall g, h, a | InChain(g) && InChain(h) && Rank(g) <= Rank(h) && (h, a) in now.writes
      ensures (g, a) in now.writes
    {
      if (h, a) !in disk.writes && g != f {
        assert h == f && a == |disk.attempts| && Stamp(disk, g) == a;
      }
    }
  }

  lemma ReplacedIsSound(written: Written, disk: Disk, f: File, content: Content)
    requires Sound(written, disk) && disk.attempts != []
    requires written(f, disk.attempts[|disk.attempts| - 1], content)
    ensures Sound(written, Replaced(disk, f, content))
  {
  }

  lemma ReplacedKeepsDisk(dir: string, disk: Disk, f: File, content: Content)
    requires DiskOk(dir, disk) && disk.attempts != []
    requires WrittenFor(dir, f, disk.attempts[|disk.attempts| - 1], content)
    requires InChain(f) ==> Reached(disk, Rank(f))
    ensures DiskOk(dir, Replaced(disk, f, content))
    ensures forall j: nat :: Reached(disk, j) ==> Reached(Replaced(disk, f, content), j)
    ensures InChain(f) ==> Reached(Replaced(disk, f, content), Rank(f) + 1)
  {
    ReplacedKeepsOrder(disk, f, content);
    ReplacedKeepsWriteOrder(disk, f, content);
    ReplacedIsSound(WrittenIn(dir), disk, f, content);
  }

  /** One write of the running attempt; a write that does not happen stops it. */
  lemma PutKeepsDisk(dir: string, p: Progress, fault: Fault, f: File, content: Content)
    requires DiskOk(dir, p.disk)
    requires p.halt.Running? ==>
      && p.disk.attempts != [] && WrittenFor(dir, f, p.disk.attempts[|p.disk.attempts| - 1], content)
      && (InChain(f) ==> Reached(p.disk, Rank(f)))
    ensures
      var q := Put(p, fault, f, content);
      && DiskOk(dir, q.disk) && q.disk.attempts == p.disk.attempts && p.disk.writes <= q.disk.writes
      && q.agent == p.agent && (q.halt.Running? ==> p.halt.Running?)
      && (q.halt.Running? && InChain(f) ==> Reached(q.disk, Rank(f) + 1))
      && (q.halt.Running? ==> f in q.disk.files && q.disk.files[f] == content)
  {
    if p.halt.Running? && fault.Fine? {
      ReplacedKeepsDisk(dir, p.disk, f, content);
    }
  }

  lemma PutKeepsReached(dir: string, p: Progress, fault: Fault, f: File, content: Content, j: nat)
    requires DiskOk(dir, p.disk) && Reached(p.disk, j)
    requires p.halt.Running? ==>
      && p.disk.attempts != [] && WrittenFor(dir, f, p.disk.attempts[|p.disk.attempts| - 1], content)
      && (InChain(f) ==> Reached(p.disk, Rank(f)))
    ensures Put(p, fault, f, content).halt.Running? ==> Reached(Put(p, fault, f, content).disk, j)
  {
    if p.halt.Running? && fault.Fine? {
      ReplacedKeepsDisk(dir, p.disk, f, content);
    }
  }

  lemma BeginIsSound(written: Written, disk: Disk, rev: Revision)
    requires Sound(written, disk)
    ensures Sound(written, Begin(disk, rev))
  {
    var now := Begin(disk, rev);
    forall f | f in now.files ensures written(f, now.attempts[now.stamps[f] - 1], now.files[f]) {
      assert now.attempts[now.stamps[f] - 1] == disk.attempts[disk.stamps[f] - 1];
    }
  }

  lemma BeginKeepsDisk(dir: string, disk: Disk, rev: Revision)
    requires DiskOk(dir, disk)
    ensures DiskOk(dir, Begin(disk, rev)) && Extends(disk, Begin(disk, rev))
  {
    assert forall f: File :: Stamp(Begin(disk, rev), f) == Stamp(disk, f);
    BeginIsSound(WrittenIn(dir), disk, rev);
  }

  // ---- one apply ----

  /** How far p has come since an attempt with rev was begun after before. */
  ghost predicate Attempting(dir: string, before: Disk, p: Progress, rev: Revision, j: nat) {
    && DiskOk(dir, p.disk) && before.writes <= p.disk.writes
    && p.disk.attempts == before.attempts + [rev]
    && (p.halt.Running? ==> Reached(p.disk, j))
  }

  lemma StagedWrites(dir: string, before: Disk, p: Progress, rev: Revision, faults: Faults)
    requires Attempting(dir, before, p, rev, 0)
    ensures
      var q := WriteStaged(p, dir, rev, faults);
      Attempting(dir, before, q, rev, 2) && q.agent == p.agent && (q.halt.Running? ==> p.halt.Running?)
  {
    var n, config, metadata := rev.revisionNumber, ConfigContent(rev), MetadataContent(dir, rev);
    PutKeepsDisk(dir, p, faults(OnRevisionConfig), RevisionConfigFile(n), config);
    var a := Put(p, faults(OnRevisionConfig), RevisionConfigFile(n), config);
    PutKeepsDisk(dir, a, faults(OnRevisionMetadata), RevisionMetadataFile(n), metadata);
    var b := Put(a, faults(OnRevisionMetadata), RevisionMetadataFile(n), metadata);
    PutKeepsDisk(dir, b, faults(OnStagedConfig), StagedConfigFile, config);
    var c := Put(b, faults(OnStagedConfig), StagedConfigFile, config);
    PutKeepsDisk(dir, c, faults(OnStagedMetadata), StagedMetadataFile, metadata);
  }

  lemma StageAttempts(id: Identity, before: Disk, p: Progress, rev: Revision, faults: Faults)
    requires DiskOk(id.Dir(), before) && p.disk == before
    ensures
      var q := Stage(id, p, rev, faults);
      && ((q.disk == before && !q.halt.Running?) || Attempting(id.Dir(), before, q, rev, 2))
      && (q.halt.Running? ==>
            p.halt.Running? && q.agent == p.agent.(status := StagedStatus(p.agent.status, rev)))
      && (!q.halt.Running? ==> q.agent == p.agent)
  {
    if p.halt.Running? && id.Dir() != "" && GetObj(BundleFields(rev), Config).Some? {
      BeginKeepsDisk(id.Dir(), before, rev);
      var begun := p.(disk := Begin(before, rev));
      var ready := Guard(Guard(begun, faults(OnRevisionDir)), faults(OnStagedDir));
      StagedWrites(id.Dir(), before, ready, rev, faults);
    }
  }

  /** Files of the switch whose stamp is the current attempt hold its bytes. */
  lemma ReachedContent(dir: string, before: Disk, p: Progress, rev: Revision, f: File)
    requires Attempting(dir, before, p, rev, 2) && p.halt.Running?
    requires f.StagedConfigFile? || f.StagedMetadataFile?
    ensures WrittenFor(dir, f, rev, ContentOf(p.disk, f)) && f in p.disk.files
  {
    assert Stamp(p.disk, f) == |p.disk.attempts|;
  }

  lemma TextMember(fields: Fields, k: Key, v: Json)
    requires k in fields && fields[k] == v
    ensures k in ToText(fields).members && ToText(fields).members[k] == Marshal(v)
  {
  }

  lemma NamesInText(dir: string, fields: Fields, rev: Revision)
    requires Get(fields, ActiveRevision) == Some(Int(rev.revisionNumber))
    requires Get(fields, ConfigArtifactPath) == Some(Str(Name(dir, ActiveConfigFile)))
    requires Get(fields, MetadataArtifactPath) == Some(Str(Name(dir, ActiveMetadataFile)))
    ensures WrittenFor(dir, StateFile, rev, ToText(fields))
  {
    TextMember(fields, ActiveRevision, Int(rev.revisionNumber));
    TextMember(fields, ConfigArtifactPath, Str(Name(dir, ActiveConfigFile)));
    TextMember(fields, MetadataArtifactPath, Str(Name(dir, ActiveMetadataFile)));
    TextIsProper(fields);
  }

  lemma ActivationHas(a: Activation, s: AgentStatus)
    ensures
      var state := ActivationFields(a, s);
      && Get(state, ActiveRevision) == Some(Int(a.number))
      && Get(state, ConfigArtifactPath) == Some(Str(a.configName))
      && Get(state, MetadataArtifactPath) == Some(Str(a.metadataName))
  {
  }

  lemma ActivationNames(id: Identity, s: AgentStatus, rev: Revision)
    ensures WrittenFor(id.Dir(), StateFile, rev, ToText(ActivationState(id, s, rev)))
  {
    ActivationHas(ActivationOf(id, rev), s);
    NamesInText(id.Dir(), ActivationState(id, s, rev), rev);
  }

  lemma ReadsKeep(p: Progress, faults: Faults)
    ensures
      var q := MustRead(
        MustRead(Guard(p, faults(OnActiveDir)), faults(OnStagedConfigRead), StagedConfigFile),
        faults(OnStagedMetadataRead), StagedMetadataFile);
      q.disk == p.disk && q.agent == p.agent && (q.halt.Running? ==> p.halt.Running?)
  {
  }

  lemma ActivateAttempts(id: Identity, before: Disk, p: Progress, rev: Revision, faults: Faults)
    requires Attempting(id.Dir(), before, p, rev, 2)
    ensures
      var q := Activate(id, p, rev, faults);
      && Attempting(id.Dir(), before, q, rev, 5) && q.agent == p.agent
      && (q.halt.Running? ==> p.halt.Running?)
  {
    var dir := id.Dir();
    var a := MustRead(Guard(p, faults(OnActiveDir)), faults(OnStagedConfigRead), StagedConfigFile);
    var b := MustRead(a, faults(OnStagedMetadataRead), StagedMetadataFile);
    ReadsKeep(p, faults);
    if b.halt.Running? {
      ReachedContent(dir, before, b, rev, StagedConfigFile);
      ReachedContent(dir, before, b, rev, StagedMetadataFile);
    }
    SwitchAttempts(id, before, b, rev, faults, p.agent.status);
  }

  lemma SwitchAttempts(id: Identity, before: Disk, p: Progress, rev: Revision, faults: Faults, s: AgentStatus)
    requires Attempting(id.Dir(), before, p, rev, 2)
    requires p.halt.Running? ==>
      && ContentOf(p.disk, StagedMetadataFile) == MetadataContent(id.Dir(), rev)
      && ContentOf(p.disk, StagedConfigFile) == ConfigContent(rev)
    ensures
      var c := Put(p, faults(OnActiveMetadata), ActiveMetadataFile, ContentOf(p.disk, StagedMetadataFile));
      var d := Put(c, faults(OnActiveConfig), ActiveConfigFile, ContentOf(p.disk, StagedConfigFile));
      var q := Put(d, faults(OnState), StateFile, ToText(ActivationState(id, s, rev)));
      Attempting(id.Dir(), before, q, rev, 5) && q.agent == p.agent && (q.halt.Running? ==> p.halt.Running?)
  {
    var dir := id.Dir();
    PutKeepsDisk(dir, p, faults(OnActiveMetadata), ActiveMetadataFile, ContentOf(p.disk, StagedMetadataFile));
    var c := Put(p, faults(OnActiveMetadata), ActiveMetadataFile, ContentOf(p.disk, StagedMetadataFile));
    PutKeepsDisk(dir, c, faults(OnActiveConfig), ActiveConfigFile, ContentOf(p.disk, StagedConfigFile));
    var d := Put(c, faults(OnActiveConfig), ActiveConfigFile, ContentOf(p.disk, StagedConfigFile));
    ActivationNames(id, s, rev);
    PutKeepsDisk(dir, d, faults(OnState), StateFile, ToText(ActivationState(id, s, rev)));
  }

  lemma PersistedHas(state: Fields, p: Persisted)
    ensures
      var now := state + StatusFields(p);
      && Get(now, ActiveRevision) == Some(Int(p.status.activeRevision))
      && Get(now, ConfigArtifactPath) == Some(Str(p.status.configPath))
      && Get(now, MetadataArtifactPath) == Some(Str(p.status.metadataPath))
  {
  }

  lemma PersistedNames(dir: string, state: Fields, s: AgentStatus, rev: Revision)
    requires s.activeRevision == rev.revisionNumber
    requires s.configPath == Name(dir, ActiveConfigFile) && s.metadataPath == Name(dir, ActiveMetadataFile)
    ensures WrittenFor(dir, StateFile, rev, ToText(WithStatus(state, s)))
  {
    PersistedHas(state, PersistedOf(s));
    NamesInText(dir, WithStatus(state, s), rev);
  }

  lemma PersistAttempts(dir: string, before: Disk, p: Progress, rev: Revision, faults: Faults)
    requires Attempting(dir, before, p, rev, 5)
    requires p.agent.status.activeRevision == rev.revisionNumber
    requires p.agent.status.configPath == Name(dir, ActiveConfigFile)
    requires p.agent.status.metadataPath == Name(dir, ActiveMetadataFile)
    ensures
      var q := Persist(p, faults);
      Attempting(dir, before, q, rev, 5) && q.agent == p.agent && p.disk.writes <= q.disk.writes
  {
    var q := Guard(p, faults(OnStateRead));
    if q.halt.Running? && !ContentOf(q.disk, StateFile).Garbled? {
      var content := ContentOf(q.disk, StateFile);
      var state := if content.Document? then FromText(content.members) else map[];
      PersistedNames(dir, state, p.agent.status, rev);
      StatePutAttempts(dir, before, q, rev, faults(OnStateAgain), ToText(WithStatus(state, p.agent.status)));
    }
  }

  lemma StatePutAttempts(dir: string, before: Disk, p: Progress, rev: Revision, fault: Fault, content: Content)
    requires Attempting(dir, before, p, rev, 5) && WrittenFor(dir, StateFile, rev, content)
    ensures
      var q := Put(p, fault, StateFile, content);
      Attempting(dir, before, q, rev, 5) && q.agent == p.agent && p.disk.writes <= q.disk.writes
  {
    PutKeepsDisk(dir, p, fault, StateFile, content);
    if p.halt.Running? { PutKeepsReached(dir, p, fault, StateFile, content, 5); }
  }

  lemma SucceededStatus(id: Identity, a: Agent, rev: Revision, t: Transition, now: Time)
    ensures
      var s := Succeeded(id, a, rev, t, now).status;
      && s.activeRevision == rev.revisionNumber && s.lastAppliedRevision == rev.revisionNumber
      && s.configPath == Name(id.Dir(), ActiveConfigFile) && s.metadataPath == Name(id.Dir(), ActiveMetadataFile)
  {
  }

  lemma FinishAttempts(id: Identity, before: Disk, p: Progress, rev: Revision, out: Outside)
    requires Attempting(id.Dir(), before, p, rev, 5)
    ensures
      var q := Finish(id, p, rev, out);
      && Attempting(id.Dir(), before, q, rev, 5) && p.disk.writes <= q.disk.writes
      && (q.halt.Running? ==> p.halt.Running?)
      && ((q.agent.status.activeRevision == rev.revisionNumber && p.halt.Running?) ||
          (q.agent.status.activeRevision == p.agent.status.activeRevision && !q.halt.Running?))
  {
    var (t, ok) := PrepareActiveConfig(p.agent.status, out.runner, out.now);
    if p.halt.Running? && !out.faults(OnPrepare).Crashes? && ok {
      SucceededStatus(id, p.agent, rev, t.value, out.now);
      PersistAttempts(id.Dir(), before, p.(agent := Succeeded(id, p.agent, rev, t.value, out.now)), rev, out.faults);
    }
  }

  /** The last attempt, with rev, has switched the active files to it. */
  ghost predicate Switched(disk: Disk, rev: Revision) {
    && disk.attempts != [] && disk.attempts[|disk.attempts| - 1] == rev
    && (ActiveMetadataFile, |disk.attempts|) in disk.writes && (ActiveConfigFile, |disk.attempts|) in disk.writes
  }

  lemma ReachedIsSwitched(dir: string, before: Disk, p: Progress, rev: Revision)
    requires Attempting(dir, before, p, rev, 5) && p.halt.Running?
    ensures Switched(p.disk, rev)
  {
    assert Stamp(p.disk, ActiveMetadataFile) == |p.disk.attempts| == Stamp(p.disk, ActiveConfigFile);
  }

  /** What an apply does to disk and active revision: at most one attempt, and the
      active revision changes only to one whose files were switched to. */
  ghost predicate AppliedWell(c: Crypto, id: Identity, a: Agent, disk: Disk, rev: Revision, q: Progress) {
    && DiskOk(id.Dir(), q.disk) && disk.writes <= q.disk.writes
    && (q.disk == disk || q.disk.attempts == disk.attempts + [rev])
    && (q.disk != disk ==> CheckRevision(c, id.nodeId, rev).None?)
    && (q.agent.status.activeRevision == a.status.activeRevision ||
        (q.agent.status.activeRevision == rev.revisionNumber && Switched(q.disk, rev)))
    && (q.halt.Running? ==>
          && CheckRevision(c, id.nodeId, rev).None?
          && q.agent.status.activeRevision == rev.revisionNumber && Switched(q.disk, rev)
          && q.disk.attempts == disk.attempts + [rev] && Reached(q.disk, 5))
  }

  lemma FailureEventKeeps(p: Progress, kind: string, rev: Revision, now: Time)
    ensures
      var q := WithFailureEvent(p, kind, rev, now);
      q.disk == p.disk && q.halt == p.halt && q.agent.status.activeRevision == p.agent.status.activeRevision
  {
  }

  lemma CheckedApplies(c: Crypto, id: Identity, a: Agent, disk: Disk, p: Progress, rev: Revision, out: Outside)
    requires DiskOk(id.Dir(), disk) && CheckRevision(c, id.nodeId, rev).None?
    requires p.disk == disk && p.agent.status.activeRevision == a.status.activeRevision
    ensures AppliedWell(c, id, a, disk, rev, ApplyChecked(id, p, rev, out))
  {
    if p.halt.Stopped? {
      FailureEventKeeps(p, "dry_run_failure", rev, out.now);
    } else {
      SwitchApplies(c, id, a, disk, p, rev, out);
    }
  }

  lemma SwitchApplies(c: Crypto, id: Identity, a: Agent, disk: Disk, p: Progress, rev: Revision, out: Outside)
    requires DiskOk(id.Dir(), disk) && CheckRevision(c, id.nodeId, rev).None?
    requires p.disk == disk && !p.halt.Stopped? && p.agent.status.activeRevision == a.status.activeRevision
    ensures
      var q := Activate(id, Stage(id, p, rev, out.faults), rev, out.faults);
      AppliedWell(
        c, id, a, disk, rev,
        if q.halt.Stopped? then WithFailureEvent(q, "apply_failure", rev, out.now) else Finish(id, q, rev, out))
  {
    var staged := Stage(id, p, rev, out.faults);
    StageAttempts(id, disk, p, rev, out.faults);
    var q := Activate(id, staged, rev, out.faults);
    if Attempting(id.Dir(), disk, staged, rev, 2) {
      ActivateAttempts(id, disk, staged, rev, out.faults);
      if q.halt.Stopped? {
        FailureEventKeeps(q, "apply_failure", rev, out.now);
      } else {
        if q.halt.Running? { ReachedIsSwitched(id.Dir(), disk, q, rev); }
        FinishAttempts(id, disk, q, rev, out);
      }
    } else {
      StoppedActivates(id, staged, rev, out.faults);
      FailureEventKeeps(q, "apply_failure", rev, out.now);
    }
  }

  lemma StoppedActivates(id: Identity, p: Progress, rev: Revision, faults: Faults)
    requires !p.halt.Running?
    ensures Activate(id, p, rev, faults) == p
  {
  }

  /** Whatever fails and wherever the process dies, one apply keeps the chain and
      every file is what its last writer wrote. */
  lemma ApplyKeepsDisk(c: Crypto, id: Identity, a: Agent, disk: Disk, rev: Revision, out: Outside)
    requires DiskOk(id.Dir(), disk)
    ensures AppliedWell(c, id, a, disk, rev, Apply(c, id, a, disk, rev, out))
  {
    if CheckRevision(c, id.nodeId, rev).None? {
      var p := Progress(Stored(a, rev), disk, DryRun(id, rev, out.faults(OnCandidate), out.dryRunFailure));
      CheckedApplies(c, id, a, disk, p, rev, out);
    }
  }

  lemma PollKeepsDisk(c: Crypto, id: Identity, a: Agent, disk: Disk, rev: Revision, out: Outside, at: Time)
    requires DiskOk(id.Dir(), disk)
    ensures
      var (q, report) := Poll(c, id, a, disk, rev, out, at);
      && AppliedWell(c, id, a, disk, rev, q)
      && (report.Some? <==> !q.halt.Crashed?)
      && (report.Some? ==> report.value.revisionId == rev.id && (report.value.applied <==> q.halt.Running?))
  {
    ApplyKeepsDisk(c, id, a, disk, rev, out);
  }

  // ---- restarts ----

  /** The bundle came out of the JSON decoder. */
  predicate Received(rev: Revision) {
    Tame(rev.bundle)
  }

  ghost predicate AttemptsReceived(c: Crypto, id: Identity, disk: Disk) {
    forall k :: 0 <= k < |disk.attempts| ==>
      CheckRevision(c, id.nodeId, disk.attempts[k]).None? && Received(disk.attempts[k])
  }

  /** A number that JSON text and float64 give back unchanged. */
  predicate Kept(n: int) {
    IsDouble(n) && -MAX_INT64 - 1 <= n <= MAX_INT64
  }

  lemma NumberMember(value: Json)
    requires Tame(value) && NumberAsInt(Some(value)).Some?
    ensures Kept(NumberAsInt(Some(value)).value)
  {
    match value
    case Int(n) => InteroperableIntSurvives(n);
    case _ =>
  }

  /** A checked number is also the float64 in the bundle, so it is given back. */
  lemma CheckedNumberIsKept(c: Crypto, id: Identity, rev: Revision)
    requires CheckRevision(c, id.nodeId, rev).None? && Received(rev)
    ensures rev.bundle.Obj? && Kept(rev.revisionNumber) && rev.revisionNumber > 0
  {
    var bundle := rev.bundle.fields;
    assert NumberAsInt(Get(bundle, RevisionNumber)) == Some(rev.revisionNumber);
    assert Tame(bundle[RevisionNumber]);
    NumberMember(bundle[RevisionNumber]);
  }

  lemma KeptIsReadBack(n: int)
    requires Kept(n)
    ensures NumberAsInt(Some(Unmarshal(DocNumber(Whole(n))))) == Some(n)
  {
    assert (n as real).Floor == n;
  }

  /** Some attempt with this number wrote the active metadata. */
  ghost predicate Named(disk: Disk, number: int) {
    exists a :: (ActiveMetadataFile, a) in disk.writes && 1 <= a <= |disk.attempts| &&
      disk.attempts[a - 1].revisionNumber == number
  }

  lemma StateNamesNumber(dir: string, members: map<Key, Doc>, rev: Revision)
    requires StateNames(dir, members, rev) && Kept(rev.revisionNumber)
    ensures ActiveRevisionFrom(FromText(members)) == Some(rev.revisionNumber)
  {
    KeptIsReadBack(rev.revisionNumber);
  }

  lemma MetadataMembers(fields: Fields, n: int)
    requires ActiveRevision !in fields && Get(fields, RevisionNumber) == Some(Int(n)) && Kept(n)
    ensures ToText(fields).Document? && ActiveRevisionFrom(FromText(ToText(fields).members)) == Some(n)
  {
    KeptIsReadBack(n);
    TextMember(fields, RevisionNumber, Int(n));
  }

  lemma MetadataNamesNumber(dir: string, rev: Revision)
    requires Kept(rev.revisionNumber)
    ensures MetadataContent(dir, rev).Document?
    ensures ActiveRevisionFrom(FromText(MetadataContent(dir, rev).members)) == Some(rev.revisionNumber)
  {
    MetadataMembers(MetadataFields(dir, rev), rev.revisionNumber);
  }

  ghost predicate AttemptsKept(disk: Disk) {
    forall k :: 0 <= k < |disk.attempts| ==> Kept(disk.attempts[k].revisionNumber)
  }

  lemma ReceivedAreKept(c: Crypto, id: Identity, disk: Disk)
    requires AttemptsReceived(c, id, disk)
    ensures AttemptsKept(disk)
  {
    forall k | 0 <= k < |disk.attempts| ensures Kept(disk.attempts[k].revisionNumber) {
      CheckedNumberIsKept(c, id, disk.attempts[k]);
    }
  }

  lemma SoundAt(written: Written, disk: Disk, f: File)
    requires Sound(written, disk) && f in disk.files
    ensures f in disk.stamps && 1 <= disk.stamps[f] <= |disk.attempts| && (f, disk.stamps[f]) in disk.writes
    ensures written(f, disk.attempts[disk.stamps[f] - 1], disk.files[f])
  {
  }

  lemma NamedBy(disk: Disk, f: File)
    requires WritesOrdered(disk) && InChain(f) && Rank(f) >= 2 && f in disk.stamps
    requires 1 <= disk.stamps[f] <= |disk.attempts| && (f, disk.stamps[f]) in disk.writes
    ensures Named(disk, disk.attempts[disk.stamps[f] - 1].revisionNumber)
  {
    assert (ActiveMetadataFile, disk.stamps[f]) in disk.writes;
  }

  lemma StateNamesAttempt(dir: string, disk: Disk)
    requires DiskOk(dir, disk) && AttemptsKept(disk) && StateFile in disk.files
    ensures disk.files[StateFile].Document?
    ensures
      var state := FromText(disk.files[StateFile].members);
      ActiveRevisionFrom(state).Some? && Named(disk, ActiveRevisionFrom(state).value)
  {
    SoundAt(WrittenIn(dir), disk, StateFile);
    NamedBy(disk, StateFile);
    WrittenStateNames(dir, disk.attempts[disk.stamps[StateFile] - 1], disk.files[StateFile]);
  }

  lemma WrittenStateNames(dir: string, rev: Revision, content: Content)
    requires WrittenFor(dir, StateFile, rev, content) && Kept(rev.revisionNumber)
    ensures content.Document? && ActiveRevisionFrom(FromText(content.members)) == Some(rev.revisionNumber)
  {
    StateNamesNumber(dir, content.members, rev);
  }

  lemma MetadataNamesAttempt(dir: string, disk: Disk)
    requires DiskOk(dir, disk) && AttemptsKept(disk) && ActiveMetadataFile in disk.files
    ensures disk.files[ActiveMetadataFile].Document?
    ensures
      var state := FromText(disk.files[ActiveMetadataFile].members);
      ActiveRevisionFrom(state).Some? && Named(disk, ActiveRevisionFrom(state).value)
  {
    SoundAt(WrittenIn(dir), disk, ActiveMetadataFile);
    NamedBy(disk, ActiveMetadataFile);
    MetadataNamesNumber(dir, disk.attempts[disk.stamps[ActiveMetadataFile] - 1]);
  }

  lemma ReaderNames(dir: string, files: map<File, Content>, unreadable: set<File>, s: AgentStatus, state: Fields)
    ensures
      var restored := ReaderOf(dir, files, unreadable)(s, state);
      restored.Some? ==>
        ActiveRevisionFrom(state).Some? && restored.value.activeRevision == ActiveRevisionFrom(state).value
  {
  }

  /** Restoring leaves the active revision or takes the one a state map names. */
  lemma RestoredActive(id: Identity, a: Agent, state: Reading, metadata: Reading, read: Reader, now: Time)
    requires forall s, fields :: (state == Holds(fields) || metadata == Holds(fields)) && read(s, fields).Some? ==>
      ActiveRevisionFrom(fields).Some? && read(s, fields).value.activeRevision == ActiveRevisionFrom(fields).value
    ensures
      var active := Opened(id, a, state, metadata, read, now).status.activeRevision;
      || active == a.status.activeRevision
      || (state.Holds? && ActiveRevisionFrom(state.state) == Some(active))
      || (metadata.Holds? && ActiveRevisionFrom(metadata.state) == Some(active))
  {
  }

  /** After a restart the agent is at no revision, or at one that an attempt named
      in the active metadata. */
  lemma RestartIsNamed(id: Identity, disk: Disk, unreadable: set<File>, now: Time)
    requires DiskOk(id.Dir(), disk) && AttemptsKept(disk)
    ensures
      var active := NewService(id, disk.files, unreadable, now).status.activeRevision;
      active == 0 || Named(disk, active)
  {
    var read := ReaderOf(id.Dir(), disk.files, unreadable);
    var state := ReadFile(disk.files, unreadable, StateFile, Absent);
    var metadata := ReadFile(disk.files, unreadable, ActiveMetadataFile, Malformed);
    if StateFile in disk.files { StateNamesAttempt(id.Dir(), disk); }
    if ActiveMetadataFile in disk.files { MetadataNamesAttempt(id.Dir(), disk); }
    forall s, fields | (state == Holds(fields) || metadata == Holds(fields)) && read(s, fields).Some?
      ensures ActiveRevisionFrom(fields).Some? && read(s, fields).value.activeRevision == ActiveRevisionFrom(fields).value
    {
      ReaderNames(id.Dir(), disk.files, unreadable, s, fields);
    }
    RestoredActive(id, Agent(InitialStatus(id), map[], []), state, metadata, read, now);
  }

  // ---- whole runs ----

  /** The agent process, or what is left of it, and its disk. */
  datatype Life = Life(agent: Agent, disk: Disk, alive: bool)

  datatype LifeEvent =
    | Polled(rev: Revision, out: Outside, at: Time)
    | Restarted(unreadable: set<File>, now: Time)

  function LifeStep(c: Crypto, id: Identity, life: Life, event: LifeEvent): Life {
    match event
    case Restarted(unreadable, now) => Life(NewService(id, life.disk.files, unreadable, now), life.disk, true)
    case Polled(rev, out, at) =>
      if !life.alive then life
      else
        var (p, _) := Poll(c, id, life.agent, life.disk, rev, out, at);
        Life(p.agent, p.disk, !p.halt.Crashed?)
  }

  const FirstLife: Life := Life(
    Agent(InitialStatus(Identity("", "", "", "", "")), map[], []), EmptyDisk, false)

  function LifeRun(c: Crypto, id: Identity, events: seq<LifeEvent>): Life {
    if events == [] then FirstLife
    else LifeStep(c, id, LifeRun(c, id, events[..|events| - 1]), events[|events| - 1])
  }

  /** Every fetched revision came out of the JSON decoder. */
  ghost predicate AllReceived(events: seq<LifeEvent>) {
    forall i :: 0 <= i < |events| && events[i].Polled? ==> Received(events[i].rev)
  }

  ghost predicate LifeOk(c: Crypto, id: Identity, life: Life) {
    && DiskOk(id.Dir(), life.disk) && AttemptsReceived(c, id, life.disk)
    && (life.agent.status.activeRevision == 0 || Named(life.disk, life.agent.status.activeRevision))
  }

  lemma NamedIsKept(disk: Disk, now: Disk, number: int)
    requires Named(disk, number) && Extends(disk, now)
    ensures Named(now, number)
  {
    var a :| (ActiveMetadataFile, a) in disk.writes && 1 <= a <= |disk.attempts| &&
      disk.attempts[a - 1].revisionNumber == number;
    assert (ActiveMetadataFile, a) in now.writes && now.attempts[a - 1] == disk.attempts[a - 1];
  }

  lemma AppliedKeepsLife(c: Crypto, id: Identity, a: Agent, disk: Disk, rev: Revision, q: Progress)
    requires LifeOk(c, id, Life(a, disk, true)) && Received(rev) && AppliedWell(c, id, a, disk, rev, q)
    ensures AttemptsReceived(c, id, q.disk) && Extends(disk, q.disk)
    ensures q.agent.status.activeRevision == 0 || Named(q.disk, q.agent.status.activeRevision)
  {
    if q.agent.status.activeRevision == a.status.activeRevision != 0 {
      NamedIsKept(disk, q.disk, a.status.activeRevision);
    }
  }

  lemma StepKeepsLife(c: Crypto, id: Identity, life: Life, event: LifeEvent)
    requires LifeOk(c, id, life) && (event.Polled? ==> Received(event.rev))
    ensures LifeOk(c, id, LifeStep(c, id, life, event)) && Extends(life.disk, LifeStep(c, id, life, event).disk)
  {
    match event
    case Restarted(unreadable, now) =>
      ReceivedAreKept(c, id, life.disk);
      RestartIsNamed(id, life.disk, unreadable, now);
    case Polled(rev, out, at) =>
      if life.alive {
        PollKeepsDisk(c, id, life.agent, life.disk, rev, out, at);
        AppliedKeepsLife(c, id, life.agent, life.disk, rev, Poll(c, id, life.agent, life.disk, rev, out, at).0);
      }
  }

  lemma FirstLifeIsOk(c: Crypto, id: Identity)
    ensures LifeOk(c, id, FirstLife)
  {
    assert forall f: File :: Stamp(EmptyDisk, f) == 0;
  }

  lemma {:induction false} RunKeepsLife(c: Crypto, id: Identity, events: seq<LifeEvent>)
    requires AllReceived(events)
    ensures LifeOk(c, id, LifeRun(c, id, events))
  {
    if events == [] {
      FirstLifeIsOk(c, id);
    } else {
      RunKeepsLife(c, id, events[..|events| - 1]);
      StepKeepsLife(c, id, LifeRun(c, id, events[..|events| - 1]), events[|events| - 1]);
    }
  }

  lemma RunKeepsDisk(c: Crypto, id: Identity, events: seq<LifeEvent>)
    requires AllReceived(events)
    ensures DiskOk(id.Dir(), LifeRun(c, id, events).disk) && AttemptsKept(LifeRun(c, id, events).disk)
  {
    RunKeepsLife(c, id, events);
    ReceivedAreKept(c, id, LifeRun(c, id, events).disk);
  }

  predicate InOrder(disk: Disk) {
    |disk.attempts| >= Stamp(disk, StagedConfigFile) >= Stamp(disk, StagedMetadataFile)
    >= Stamp(disk, ActiveMetadataFile) >= Stamp(disk, ActiveConfigFile) >= Stamp(disk, StateFile)
  }

  lemma ChainedInOrder(disk: Disk)
    requires Chained(disk)
    ensures InOrder(disk)
  {
  }

  /** After any run of applies, failed operations, crashes and restarts: staged
      config >= staged metadata >= active metadata >= active config >= state. */
  lemma FilesStayInOrder(c: Crypto, id: Identity, events: seq<LifeEvent>)
    requires AllReceived(events)
    ensures InOrder(LifeRun(c, id, events).disk)
  {
    RunKeepsDisk(c, id, events);
    ChainedInOrder(LifeRun(c, id, events).disk);
  }

  /** The state file names the revision of its last writer, an attempt whose config
      became active; the active config is at that attempt or a later one. */
  predicate StateIsBehind(disk: Disk) {
    StateFile in disk.files ==> StateStamped(disk) && StateNamesWriter(disk) && ConfigIsWriters(disk)
  }

  predicate StateStamped(disk: Disk) {
    && 1 <= Stamp(disk, StateFile) <= Stamp(disk, ActiveConfigFile) <= |disk.attempts|
    && (ActiveConfigFile, Stamp(disk, StateFile)) in disk.writes
  }

  predicate StateNamesWriter(disk: Disk) {
    && StateFile in disk.files && 1 <= Stamp(disk, StateFile) <= |disk.attempts| && disk.files[StateFile].Document?
    && ActiveRevisionFrom(FromText(disk.files[StateFile].members)) ==
       Some(disk.attempts[Stamp(disk, StateFile) - 1].revisionNumber)
  }

  predicate ConfigIsWriters(disk: Disk) {
    && ActiveConfigFile in disk.files && 1 <= Stamp(disk, ActiveConfigFile) <= |disk.attempts|
    && disk.files[ActiveConfigFile] == ConfigContent(disk.attempts[Stamp(disk, ActiveConfigFile) - 1])
  }

  lemma StateText(dir: string, disk: Disk)
    requires Sound(WrittenIn(dir), disk) && AttemptsKept(disk) && StateFile in disk.files
    ensures StateNamesWriter(disk) && (StateFile, Stamp(disk, StateFile)) in disk.writes
  {
    SoundAt(WrittenIn(dir), disk, StateFile);
    StateNamesNumber(dir, disk.files[StateFile].members, disk.attempts[disk.stamps[StateFile] - 1]);
  }

  lemma ConfigText(dir: string, disk: Disk)
    requires Sound(WrittenIn(dir), disk) && Stamp(disk, ActiveConfigFile) >= 1
    ensures ConfigIsWriters(disk)
  {
    SoundAt(WrittenIn(dir), disk, ActiveConfigFile);
  }

  lemma StateFacts(dir: string, disk: Disk)
    requires DiskOk(dir, disk) && AttemptsKept(disk) && StateFile in disk.files
    ensures StateIsBehind(disk)
  {
    StateText(dir, disk);
    ChainedInOrder(disk);
    ConfigText(dir, disk);
    StateIsStamped(disk);
  }

  lemma StateIsStamped(disk: Disk)
    requires InOrder(disk) && WritesOrdered(disk) && Stamp(disk, StateFile) >= 1
    requires (StateFile, Stamp(disk, StateFile)) in disk.writes
    ensures StateStamped(disk)
  {
    assert Rank(ActiveConfigFile) <= Rank(StateFile);
  }

  lemma StateNamesAnActivatedRevision(c: Crypto, id: Identity, events: seq<LifeEvent>)
    requires AllReceived(events)
    ensures StateIsBehind(LifeRun(c, id, events).disk)
  {
    RunKeepsDisk(c, id, events);
    if StateFile in LifeRun(c, id, events).disk.files { StateFacts(id.Dir(), LifeRun(c, id, events).disk); }
  }
}
