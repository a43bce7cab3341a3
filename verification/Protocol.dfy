/** Panel and agent together, over a network that may lose, delay and repeat every
    message, with restarts of the agent between any two file operations. */
module Protocol {
  import opened Text
  import opened Json
  import opened ConfigBundle
  import opened AgentCheck
  import opened Agent
  import opened CrashConsistency
  import opened DecodingTheorems
  import opened RenderTheorems
  import opened Panel
  import opened PanelTheorems
  import R = Render

  // ---- the system ----

  /** answers, reports and beats: every message ever sent; any of them can be
      delivered at any later time, any number of times, or never. */
  datatype World = World(
    db: Db, life: Life, answers: set<Revision>, reports: set<ReportMessage>, beats: set<int>)

  datatype NetEvent =
    | Administers(op: PanelOp)
    | Answers
    | Polls(rev: Revision, out: Outside, at: Time)
    | Beats
    | GetsReport(report: ReportMessage)
    | GetsBeat(active: int)
    | Restarts(unreadable: set<File>, now: Time)

  /** Only the node's own agent sends its heartbeats and reports. */
  predicate Foreign(op: PanelOp, node: string) {
    (op.OpHeartbeat? || op.OpReport?) ==> op.nodeId != node
  }

  function Answered(cfg: PanelConfig, id: Identity, w: World): World {
    match FindLatestPending(cfg.crypto, w.db, id.nodeId, id.nodeToken)
    case Failure(_) => w
    case Success(row) => w.(answers := w.answers + {Fetched(row)})
  }

  function Polling(cfg: PanelConfig, id: Identity, w: World, rev: Revision, out: Outside, at: Time): World {
    var (p, report) := Poll(cfg.crypto, id, w.life.agent, w.life.disk, rev, out, at);
    w.(life := Life(p.agent, p.disk, !p.halt.Crashed?),
       reports := match report case Some(m) => w.reports + {m} case None => w.reports)
  }

  function Reported(cfg: PanelConfig, id: Identity, db: Db, m: ReportMessage): Db {
    Report(
      cfg.crypto, db, id.nodeId, id.nodeToken, m.revisionId, if m.applied then ReportApplied else ReportFailed,
      m.errorMessage).0
  }

  function Beaten(cfg: PanelConfig, id: Identity, db: Db, active: int): Db {
    Heartbeat(cfg.crypto, db, id.nodeId, id.nodeToken, AGENT_STATUS, active).0
  }

  const AGENT_STATUS := "active"

  function NetStep(cfg: PanelConfig, id: Identity, w: World, e: NetEvent): World {
    match e
    case Administers(op) => if Foreign(op, id.nodeId) then w.(db := Step(cfg, w.db, op)) else w
    case Answers => Answered(cfg, id, w)
    case Polls(rev, out, at) =>
      if w.life.alive && rev in w.answers then Polling(cfg, id, w, rev, out, at) else w
    case Beats => if w.life.alive then w.(beats := w.beats + {w.life.agent.status.activeRevision}) else w
    case GetsReport(m) => if m in w.reports then w.(db := Reported(cfg, id, w.db, m)) else w
    case GetsBeat(n) => if n in w.beats then w.(db := Beaten(cfg, id, w.db, n)) else w
    case Restarts(unreadable, now) =>
      w.(life := LifeStep(cfg.crypto, id, w.life, Restarted(unreadable, now)))
  }

  const FirstWorld: World := World(EmptyDb, FirstLife, {}, {}, {})

  function NetRun(cfg: PanelConfig, id: Identity, events: seq<NetEvent>): World {
    if events == [] then FirstWorld
    else NetStep(cfg, id, NetRun(cfg, id, events[..|events| - 1]), events[|events| - 1])
  }

  // ---- what links the two sides ----

  predicate Matches(row: RevisionRow, rev: Revision) {
    rev.id == row.id && rev.revisionNumber == row.number && rev.rollbackTarget == row.rollbackTarget
  }

  /** The revision is a row of the node. */
  predicate RowOf(rows: seq<RevisionRow>, node: string, rev: Revision) {
    exists i :: 0 <= i < |rows| && rows[i].nodeId == node && Matches(rows[i], rev)
  }

  /** Some attempt with the revision of this id switched the active config to it. */
  ghost predicate Activated(disk: Disk, revisionId: string) {
    exists a :: (ActiveConfigFile, a) in disk.writes && 1 <= a <= |disk.attempts| && disk.attempts[a - 1].id == revisionId
  }

  ghost predicate NamedOrNone(disk: Disk, number: int) {
    number == 0 || Named(disk, number)
  }

  ghost predicate MessagesOk(rows: seq<RevisionRow>, disk: Disk, w: World, node: string) {
    && (forall rev :: rev in w.answers ==> RowOf(rows, node, rev) && Received(rev))
    && (forall k :: 0 <= k < |disk.attempts| ==> disk.attempts[k] in w.answers)
    && (forall m :: m in w.reports && m.applied ==> Activated(disk, m.revisionId))
    && (forall n :: n in w.beats ==> NamedOrNone(disk, n))
  }

  /** Applied rows were activated; rollback targets are smaller activated numbers. */
  ghost predicate NodeRowOk(row: RevisionRow, disk: Disk) {
    && (row.status.RowApplied? ==> Activated(disk, row.id))
    && NamedOrNone(disk, row.rollbackTarget) && row.rollbackTarget < row.number
  }

  ghost predicate NodeRowsOk(rows: seq<RevisionRow>, disk: Disk, node: string) {
    forall i :: 0 <= i < |rows| && rows[i].nodeId == node ==> NodeRowOk(rows[i], disk)
  }

  ghost predicate ActiveOk(db: Db, disk: Disk, node: string) {
    node in db.nodes ==> NamedOrNone(disk, db.nodes[node].activeRevision)
  }

  ghost predicate LinkOk(db: Db, w: World, node: string) {
    && MessagesOk(db.revisions, w.life.disk, w, node) && NodeRowsOk(db.revisions, w.life.disk, node)
    && ActiveOk(db, w.life.disk, node)
  }

  ghost predicate WorldOk(cfg: PanelConfig, id: Identity, w: World) {
    && PanelOk(cfg, w.db) && LifeOk(cfg.crypto, id, w.life) && LinkOk(w.db, w, id.nodeId)
  }

  // ---- growth of the disk and of the table ----

  lemma ActivatedIsKept(disk: Disk, now: Disk, revisionId: string)
    requires Activated(disk, revisionId) && Extends(disk, now)
    ensures Activated(now, revisionId)
  {
    var a :| (ActiveConfigFile, a) in disk.writes && 1 <= a <= |disk.attempts| && disk.attempts[a - 1].id == revisionId;
    assert (ActiveConfigFile, a) in now.writes && now.attempts[a - 1] == disk.attempts[a - 1];
  }

  lemma NamedOrNoneIsKept(disk: Disk, now: Disk, number: int)
    requires NamedOrNone(disk, number) && Extends(disk, now)
    ensures NamedOrNone(now, number)
  {
    if number != 0 { NamedIsKept(disk, now, number); }
  }

  lemma RowsKeptByDisk(rows: seq<RevisionRow>, disk: Disk, now: Disk, node: string)
    requires NodeRowsOk(rows, disk, node) && Extends(disk, now)
    ensures NodeRowsOk(rows, now, node)
  {
    forall i | 0 <= i < |rows| && rows[i].nodeId == node ensures NodeRowOk(rows[i], now) {
      assert NodeRowOk(rows[i], disk);
      if rows[i].status.RowApplied? { ActivatedIsKept(disk, now, rows[i].id); }
      NamedOrNoneIsKept(disk, now, rows[i].rollbackTarget);
    }
  }

  /** Rows keep what identifies them. */
  predicate SameRows(rows: seq<RevisionRow>, now: seq<RevisionRow>) {
    && |rows| <= |now|
    && forall i :: 0 <= i < |rows| ==> Seal(now[i]) == Seal(rows[i])
  }

  lemma RowOfIsKept(rows: seq<RevisionRow>, now: seq<RevisionRow>, node: string, rev: Revision)
    requires RowOf(rows, node, rev) && SameRows(rows, now)
    ensures RowOf(now, node, rev)
  {
    var i :| 0 <= i < |rows| && rows[i].nodeId == node && Matches(rows[i], rev);
    assert Seal(now[i]) == Seal(rows[i]);
    assert now[i].nodeId == Seal(now[i]).nodeId == node;
    assert now[i].id == Seal(now[i]).id && now[i].number == Seal(now[i]).number;
    assert now[i].rollbackTarget == Seal(now[i]).rollbackTarget;
    assert Matches(now[i], rev);
  }

  lemma MessagesKeptByRows(rows: seq<RevisionRow>, now: seq<RevisionRow>, disk: Disk, w: World, node: string)
    requires MessagesOk(rows, disk, w, node) && SameRows(rows, now)
    ensures MessagesOk(now, disk, w, node)
  {
    forall rev | rev in w.answers ensures RowOf(now, node, rev) { RowOfIsKept(rows, now, node, rev); }
  }

  /** A named revision is one of the node's rows, so its number is in use. */
  lemma NamedIsInUse(rows: seq<RevisionRow>, disk: Disk, w: World, node: string, number: int)
    requires MessagesOk(rows, disk, w, node) && NamedOrNone(disk, number)
    ensures number <= MaxNumber(rows, node)
  {
    if number != 0 {
      var a :| (ActiveMetadataFile, a) in disk.writes && 1 <= a <= |disk.attempts| &&
        disk.attempts[a - 1].revisionNumber == number;
      assert RowOf(rows, node, disk.attempts[a - 1]);
    }
  }

  /** An activated id is that of the row whose number was named. */
  lemma ActivatedIsNamed(rows: seq<RevisionRow>, disk: Disk, w: World, node: string, i: nat)
    requires MessagesOk(rows, disk, w, node) && UniqueIds(rows) && WritesOrdered(disk)
    requires i < |rows| && Activated(disk, rows[i].id)
    ensures Named(disk, rows[i].number)
  {
    var a :| (ActiveConfigFile, a) in disk.writes && 1 <= a <= |disk.attempts| && disk.attempts[a - 1].id == rows[i].id;
    assert RowOf(rows, node, disk.attempts[a - 1]);
    var j :| 0 <= j < |rows| && rows[j].nodeId == node && Matches(rows[j], disk.attempts[a - 1]);
    assert j == i by { assert rows[j].id == rows[i].id; }
    assert (ActiveMetadataFile, a) in disk.writes;
  }

  // ---- the panel's steps ----

  /** A step of the panel that does not concern the node's agent: at most a new
      pending row, whose rollback target is the node's active revision. */
  predicate OutsideStep(db: Db, now: Db, node: string) {
    && SameRows(db.revisions, now.revisions)
    && (forall i :: 0 <= i < |db.revisions| && db.revisions[i].nodeId == node ==> now.revisions[i] == db.revisions[i])
    && (forall i :: |db.revisions| <= i < |now.revisions| && now.revisions[i].nodeId == node ==>
          && node in db.nodes && now.revisions[i].status.RowPending?
          && now.revisions[i].rollbackTarget == db.nodes[node].activeRevision
          && now.revisions[i].number == MaxNumber(db.revisions, node) + 1)
    && (node in now.nodes ==>
          now.nodes[node].activeRevision == if node in db.nodes then db.nodes[node].activeRevision else 0)
  }

  lemma OutsideKeepsLink(db: Db, now: Db, w: World, node: string)
    requires LinkOk(db, w, node) && OutsideStep(db, now, node)
    ensures LinkOk(now, w, node)
  {
    var disk := w.life.disk;
    MessagesKeptByRows(db.revisions, now.revisions, disk, w, node);
    forall i | 0 <= i < |now.revisions| && now.revisions[i].nodeId == node
      ensures NodeRowOk(now.revisions[i], disk)
    {
      if i < |db.revisions| {
        assert Seal(now.revisions[i]).nodeId == Seal(db.revisions[i]).nodeId;
        assert NodeRowOk(db.revisions[i], disk);
      } else {
        NamedIsInUse(db.revisions, disk, w, node, db.nodes[node].activeRevision);
      }
    }
  }

  lemma InsertIsOutside(
    c: Crypto, db: Db, id: string, nodeId: string, number: int, origin: Origin, node: string)
    requires nodeId in db.nodes && number == MaxNumber(db.revisions, nodeId) + 1
    ensures OutsideStep(
      db, InsertRevision(c, db, id, nodeId, number, db.nodes[nodeId].activeRevision, origin).0, node)
  {
    var target := db.nodes[nodeId].activeRevision;
    var now := InsertRevision(c, db, id, nodeId, number, target, origin).0;
    InsertAppends(c, db, id, nodeId, number, target, origin);
    if now == db {
      SameIsOutside(db, now, node);
    } else {
      AppendedIsOutside(db, now, now.revisions[|db.revisions|], node);
    }
  }

  lemma InsertAppends(
    c: Crypto, db: Db, id: string, nodeId: string, number: int, target: int, origin: Origin)
    ensures
      var now := InsertRevision(c, db, id, nodeId, number, target, origin).0;
      now == db ||
      (|now.revisions| == |db.revisions| + 1 && now.nodes == db.nodes
       && var row := now.revisions[|db.revisions|];
          now.revisions == db.revisions + [row] && row.nodeId == nodeId && row.number == number
          && row.rollbackTarget == target && row.status.RowPending?)
  {
  }

  lemma SameIsOutside(db: Db, now: Db, node: string)
    requires now == db
    ensures OutsideStep(db, now, node)
  {
  }

  lemma AppendedIsOutside(db: Db, now: Db, row: RevisionRow, node: string)
    requires now.revisions == db.revisions + [row] && now.nodes == db.nodes && row.nodeId in db.nodes
    requires row.status.RowPending? && row.rollbackTarget == db.nodes[row.nodeId].activeRevision
    requires row.number == MaxNumber(db.revisions, row.nodeId) + 1
    ensures OutsideStep(db, now, node)
  {
  }

  lemma DeployIsOutside(cfg: PanelConfig, db: Db, nodeId: string, id: string, inputs: seq<R.SubscriptionInput>, node: string)
    ensures OutsideStep(db, CreateDeploy(cfg.crypto, db, cfg.reality, nodeId, id, inputs).0, node)
  {
    if CheckCreation(db, nodeId).None? {
      var input := DeployInput(db, nodeId, inputs);
      InsertIsOutside(
        cfg.crypto, db, id, nodeId, input.revisionNumber, Origin(R.RenderPayload(input, cfg.reality), Deployed(input)), node);
    }
  }

  lemma RollbackIsOutside(c: Crypto, db: Db, nodeId: string, revisionId: string, id: string, node: string)
    ensures OutsideStep(db, CreateRollback(c, db, nodeId, revisionId, id).0, node)
  {
    var found := FindRow(db.revisions, nodeId, revisionId);
    if CheckCreation(db, nodeId).None? && found.Some? && db.revisions[found.value].status.RowApplied?
       && ScanBundle(db.revisions[found.value]).Obj? {
      InsertIsOutside(
        c, db, id, nodeId, MaxNumber(db.revisions, nodeId) + 1, RollbackOrigin(db, nodeId, found.value), node);
    }
  }

  lemma ForeignReportIsOutside(
    c: Crypto, db: Db, nodeId: string, token: string, revisionId: string, status: ReportStatus, message: string, node: string)
    requires nodeId != node
    ensures OutsideStep(db, Report(c, db, nodeId, token, revisionId, status, message).0, node)
  {
  }

  lemma ForeignHeartbeatIsOutside(
    c: Crypto, db: Db, nodeId: string, token: string, status: string, active: int, node: string)
    requires nodeId != node
    ensures OutsideStep(db, Heartbeat(c, db, nodeId, token, status, active).0, node)
  {
  }

  lemma BootstrapIsOutside(
    c: Crypto, db: Db, nodeId: string, token: string, hostname: string, region: string, countryCode: string,
    expiresAt: int, node: string)
    ensures OutsideStep(db, CreateBootstrap(c, db, nodeId, token, hostname, region, countryCode, expiresAt).0, node)
  {
  }

  lemma RegisterIsOutside(
    c: Crypto, db: Db, nodeId: string, token: string, hostname: string, nodeToken: string, at: int, node: string)
    ensures OutsideStep(db, Register(c, db, nodeId, token, hostname, nodeToken, at).0, node)
  {
  }

  lemma TransitionIsOutside(db: Db, nodeId: string, action: Lifecycle, node: string)
    ensures OutsideStep(db, Panel.Transition(db, nodeId, action).0, node)
  {
  }

  lemma ForeignIsOutside(cfg: PanelConfig, db: Db, op: PanelOp, node: string)
    requires Foreign(op, node)
    ensures OutsideStep(db, Step(cfg, db, op), node)
  {
    match op
    case OpBootstrap(nodeId, token, hostname, region, countryCode, expiresAt) =>
      BootstrapIsOutside(cfg.crypto, db, nodeId, token, hostname, region, countryCode, expiresAt, node);
    case OpRegister(nodeId, token, hostname, nodeToken, at) =>
      RegisterIsOutside(cfg.crypto, db, nodeId, token, hostname, nodeToken, at, node);
    case OpHeartbeat(nodeId, token, status, active) =>
      ForeignHeartbeatIsOutside(cfg.crypto, db, nodeId, token, status, active, node);
    case OpLifecycle(nodeId, action) => TransitionIsOutside(db, nodeId, action, node);
    case OpDeploy(nodeId, id, inputs) => DeployIsOutside(cfg, db, nodeId, id, inputs, node);
    case OpRollback(nodeId, revisionId, id) => RollbackIsOutside(cfg.crypto, db, nodeId, revisionId, id, node);
    case OpReport(nodeId, token, revisionId, status, message) =>
      ForeignReportIsOutside(cfg.crypto, db, nodeId, token, revisionId, status, message, node);
  }

  /** A verdict on the node's row i, and the active revision that goes with it. */
  predicate VerdictStep(db: Db, now: Db, node: string, i: nat, applied: bool) {
    && i < |db.revisions| == |now.revisions| && db.revisions[i].nodeId == node && node in db.nodes
    && now.revisions == db.revisions[i := now.revisions[i]] && Seal(now.revisions[i]) == Seal(db.revisions[i])
    && (now.revisions[i].status.RowApplied? <==> applied) && node in now.nodes
    && now.nodes[node].activeRevision == if applied then db.revisions[i].number else db.nodes[node].activeRevision
  }

  lemma VerdictKeepsLink(db: Db, now: Db, w: World, node: string, i: nat, applied: bool)
    requires LinkOk(db, w, node) && UniqueIds(db.revisions) && WritesOrdered(w.life.disk)
    requires VerdictStep(db, now, node, i, applied)
    requires applied ==> Activated(w.life.disk, db.revisions[i].id)
    ensures LinkOk(now, w, node)
  {
    var disk := w.life.disk;
    MessagesKeptByRows(db.revisions, now.revisions, disk, w, node);
    VerdictKeepsRow(db.revisions[i], now.revisions[i], disk);
    OtherRowsKept(db.revisions, now.revisions, disk, node, i);
    if applied { ActivatedIsNamed(db.revisions, disk, w, node, i); }
  }

  lemma VerdictKeepsRow(row: RevisionRow, now: RevisionRow, disk: Disk)
    requires NodeRowOk(row, disk) && Seal(now) == Seal(row)
    requires now.status.RowApplied? ==> Activated(disk, row.id)
    ensures NodeRowOk(now, disk)
  {
    assert now.id == Seal(now).id == row.id && now.number == Seal(now).number;
    assert now.rollbackTarget == Seal(now).rollbackTarget;
  }

  lemma OtherRowsKept(rows: seq<RevisionRow>, now: seq<RevisionRow>, disk: Disk, node: string, i: nat)
    requires NodeRowsOk(rows, disk, node) && i < |rows| == |now| && now == rows[i := now[i]]
    requires NodeRowOk(now[i], disk)
    ensures NodeRowsOk(now, disk, node)
  {
    forall j | 0 <= j < |now| && now[j].nodeId == node ensures NodeRowOk(now[j], disk) {
      if j != i { assert NodeRowOk(rows[j], disk); }
    }
  }

  lemma ReportIsVerdict(
    c: Crypto, db: Db, node: string, token: string, revisionId: string, status: ReportStatus, message: string)
    ensures
      var (now, result) := Report(c, db, node, token, revisionId, status, message);
      var found := FindRow(db.revisions, node, revisionId);
      if result.Success? then
        && found.Some? && db.revisions[found.value].id == revisionId
        && VerdictStep(db, now, node, found.value, status.ReportApplied?)
      else now == db
  {
  }

  lemma ReportKeepsLink(cfg: PanelConfig, id: Identity, w: World, m: ReportMessage)
    requires LinkOk(w.db, w, id.nodeId) && m in w.reports
    requires UniqueIds(w.db.revisions) && WritesOrdered(w.life.disk)
    ensures LinkOk(Reported(cfg, id, w.db, m), w, id.nodeId)
  {
    var status := if m.applied then ReportApplied else ReportFailed;
    ReportIsVerdict(cfg.crypto, w.db, id.nodeId, id.nodeToken, m.revisionId, status, m.errorMessage);
    var (now, result) := Report(cfg.crypto, w.db, id.nodeId, id.nodeToken, m.revisionId, status, m.errorMessage);
    if result.Success? {
      VerdictKeepsLink(w.db, now, w, id.nodeId, FindRow(w.db.revisions, id.nodeId, m.revisionId).value, m.applied);
    }
  }

  lemma BeatSetsActive(c: Crypto, db: Db, node: string, token: string, status: string, active: int)
    ensures
      var (now, result) := Heartbeat(c, db, node, token, status, active);
      && now.revisions == db.revisions
      && (if result.Success? then node in now.nodes && now.nodes[node].activeRevision == active else now == db)
  {
  }

  lemma BeatKeepsLink(cfg: PanelConfig, id: Identity, w: World, n: int)
    requires LinkOk(w.db, w, id.nodeId) && n in w.beats
    ensures LinkOk(Beaten(cfg, id, w.db, n), w, id.nodeId)
  {
    BeatSetsActive(cfg.crypto, w.db, id.nodeId, id.nodeToken, AGENT_STATUS, n);
  }

  // ---- the agent's steps ----

  lemma SwitchedIsActivated(disk: Disk, rev: Revision)
    requires Switched(disk, rev)
    ensures Activated(disk, rev.id)
  {
    assert disk.attempts[|disk.attempts| - 1].id == rev.id;
  }

  /** The disk has grown by attempts with fetched revisions only. */
  lemma DiskKeepsLink(db: Db, w: World, disk: Disk, node: string)
    requires LinkOk(db, w, node) && Extends(w.life.disk, disk)
    requires forall k :: 0 <= k < |disk.attempts| ==> disk.attempts[k] in w.answers
    ensures MessagesOk(db.revisions, disk, w, node) && NodeRowsOk(db.revisions, disk, node) && ActiveOk(db, disk, node)
  {
    RowsKeptByDisk(db.revisions, w.life.disk, disk, node);
    forall m | m in w.reports && m.applied ensures Activated(disk, m.revisionId) {
      ActivatedIsKept(w.life.disk, disk, m.revisionId);
    }
    forall n | n in w.beats ensures NamedOrNone(disk, n) { NamedOrNoneIsKept(w.life.disk, disk, n); }
    if node in db.nodes { NamedOrNoneIsKept(w.life.disk, disk, db.nodes[node].activeRevision); }
  }

  lemma ReportIsEarned(
    db: Db, w: World, now: World, disk: Disk, node: string, rev: Revision, report: Option<ReportMessage>)
    requires MessagesOk(db.revisions, disk, w, node) && NodeRowsOk(db.revisions, disk, node) && ActiveOk(db, disk, node)
    requires now.life.disk == disk && now.answers == w.answers && now.beats == w.beats
    requires now.reports == match report case Some(m) => w.reports + {m} case None => w.reports
    requires report.Some? && report.value.applied ==> report.value.revisionId == rev.id && Switched(disk, rev)
    ensures LinkOk(db, now, node)
  {
    if report.Some? && report.value.applied { SwitchedIsActivated(disk, rev); }
  }

  lemma AppliedExtends(c: Crypto, id: Identity, a: Agent, disk: Disk, rev: Revision, q: Progress, answers: set<Revision>)
    requires AppliedWell(c, id, a, disk, rev, q) && rev in answers
    requires forall k :: 0 <= k < |disk.attempts| ==> disk.attempts[k] in answers
    ensures Extends(disk, q.disk) && forall k :: 0 <= k < |q.disk.attempts| ==> q.disk.attempts[k] in answers
    ensures q.halt.Running? ==> Switched(q.disk, rev)
  {
  }

  lemma PollKeepsLink(cfg: PanelConfig, id: Identity, w: World, rev: Revision, out: Outside, at: Time)
    requires LinkOk(w.db, w, id.nodeId) && DiskOk(id.Dir(), w.life.disk) && rev in w.answers
    ensures LinkOk(w.db, Polling(cfg, id, w, rev, out, at), id.nodeId)
  {
    var (q, report) := Poll(cfg.crypto, id, w.life.agent, w.life.disk, rev, out, at);
    PollKeepsDisk(cfg.crypto, id, w.life.agent, w.life.disk, rev, out, at);
    AppliedExtends(cfg.crypto, id, w.life.agent, w.life.disk, rev, q, w.answers);
    DiskKeepsLink(w.db, w, q.disk, id.nodeId);
    ReportIsEarned(w.db, w, Polling(cfg, id, w, rev, out, at), q.disk, id.nodeId, rev, report);
  }

  lemma RoundTripIsTame(j: Json)
    ensures Tame(RoundTrip(j))
  {
    MarshalIsProper(j);
    DecodedIsWellFormed(Marshal(j));
    NoIntsAfterDecoding(Marshal(j));
  }

  lemma FetchedIsReceived(row: RevisionRow)
    ensures Received(Fetched(row)) && Matches(row, Fetched(row))
  {
    RoundTripIsTame(ScanBundle(row));
  }

  lemma LatestIsRow(c: Crypto, db: Db, node: string, token: string)
    ensures
      var result := FindLatestPending(c, db, node, token);
      result.Success? ==> exists i :: 0 <= i < |db.revisions| && db.revisions[i].nodeId == node && db.revisions[i] == result.value
  {
  }

  lemma AnswerKeepsLink(cfg: PanelConfig, id: Identity, w: World)
    requires LinkOk(w.db, w, id.nodeId)
    ensures LinkOk(w.db, Answered(cfg, id, w), id.nodeId)
  {
    var result := FindLatestPending(cfg.crypto, w.db, id.nodeId, id.nodeToken);
    LatestIsRow(cfg.crypto, w.db, id.nodeId, id.nodeToken);
    if result.Success? {
      FetchedIsReceived(result.value);
      AnswerAdded(w.db.revisions, w.life.disk, w, Answered(cfg, id, w), id.nodeId, Fetched(result.value), result.value);
    }
  }

  lemma AnswerAdded(
    rows: seq<RevisionRow>, disk: Disk, w: World, now: World, node: string, rev: Revision, row: RevisionRow)
    requires MessagesOk(rows, disk, w, node) && now == w.(answers := w.answers + {rev})
    requires exists i :: 0 <= i < |rows| && rows[i].nodeId == node && rows[i] == row
    requires Received(rev) && Matches(row, rev)
    ensures MessagesOk(rows, disk, now, node)
  {
    assert RowOf(rows, node, rev);
  }

  // ---- whole runs ----

  lemma WorldFacts(cfg: PanelConfig, id: Identity, w: World)
    requires WorldOk(cfg, id, w)
    ensures UniqueIds(w.db.revisions) && DiskOk(id.Dir(), w.life.disk) && WritesOrdered(w.life.disk)
    ensures NamedOrNone(w.life.disk, w.life.agent.status.activeRevision)
  {
  }

  lemma PollStepKeepsLife(cfg: PanelConfig, id: Identity, w: World, rev: Revision, out: Outside, at: Time)
    requires LifeOk(cfg.crypto, id, w.life) && w.life.alive && Received(rev)
    ensures LifeOk(cfg.crypto, id, Polling(cfg, id, w, rev, out, at).life)
  {
    StepKeepsLife(cfg.crypto, id, w.life, Polled(rev, out, at));
    assert LifeStep(cfg.crypto, id, w.life, Polled(rev, out, at)) == Polling(cfg, id, w, rev, out, at).life;
  }

  lemma SameDiskKeepsLink(db: Db, w: World, now: World, node: string)
    requires LinkOk(db, w, node) && now == w.(life := now.life) && now.life.disk == w.life.disk
    ensures LinkOk(db, now, node)
  {
  }

  lemma RestartKeepsDisk(c: Crypto, id: Identity, life: Life, unreadable: set<File>, now: Time)
    ensures LifeStep(c, id, life, Restarted(unreadable, now)).disk == life.disk
  {
  }

  lemma ReportKeepsPanel(cfg: PanelConfig, id: Identity, db: Db, m: ReportMessage)
    requires SanePanel(cfg) && PanelOk(cfg, db)
    ensures PanelOk(cfg, Reported(cfg, id, db, m)) && RowsKept(db, Reported(cfg, id, db, m))
  {
    ReportKeepsTable(
      cfg, db, id.nodeId, id.nodeToken, m.revisionId, if m.applied then ReportApplied else ReportFailed, m.errorMessage);
  }

  lemma BeatKeepsPanel(cfg: PanelConfig, id: Identity, db: Db, n: int)
    requires SanePanel(cfg) && PanelOk(cfg, db)
    ensures PanelOk(cfg, Beaten(cfg, id, db, n)) && RowsKept(db, Beaten(cfg, id, db, n))
  {
    StepKeepsTable(cfg, db, OpHeartbeat(id.nodeId, id.nodeToken, AGENT_STATUS, n));
  }

  lemma SameRowsKept(db: Db)
    ensures RowsKept(db, db)
  {
  }

  /** A step of the panel alone. */
  lemma PanelStepKeepsWorld(cfg: PanelConfig, id: Identity, w: World, now: Db)
    requires WorldOk(cfg, id, w) && PanelOk(cfg, now) && LinkOk(now, w, id.nodeId)
    ensures WorldOk(cfg, id, w.(db := now))
  {
  }

  lemma OperatorKeepsWorld(cfg: PanelConfig, id: Identity, w: World, op: PanelOp)
    requires SanePanel(cfg) && WorldOk(cfg, id, w) && Foreign(op, id.nodeId)
    ensures WorldOk(cfg, id, w.(db := Step(cfg, w.db, op))) && RowsKept(w.db, Step(cfg, w.db, op))
  {
    StepKeepsTable(cfg, w.db, op);
    ForeignIsOutside(cfg, w.db, op, id.nodeId);
    OutsideKeepsLink(w.db, Step(cfg, w.db, op), w, id.nodeId);
    PanelStepKeepsWorld(cfg, id, w, Step(cfg, w.db, op));
  }

  lemma ReportKeepsWorld(cfg: PanelConfig, id: Identity, w: World, m: ReportMessage)
    requires SanePanel(cfg) && WorldOk(cfg, id, w) && m in w.reports
    ensures WorldOk(cfg, id, w.(db := Reported(cfg, id, w.db, m))) && RowsKept(w.db, Reported(cfg, id, w.db, m))
  {
    WorldFacts(cfg, id, w);
    ReportKeepsPanel(cfg, id, w.db, m);
    ReportKeepsLink(cfg, id, w, m);
    PanelStepKeepsWorld(cfg, id, w, Reported(cfg, id, w.db, m));
  }

  lemma BeatKeepsWorld(cfg: PanelConfig, id: Identity, w: World, n: int)
    requires SanePanel(cfg) && WorldOk(cfg, id, w) && n in w.beats
    ensures WorldOk(cfg, id, w.(db := Beaten(cfg, id, w.db, n))) && RowsKept(w.db, Beaten(cfg, id, w.db, n))
  {
    BeatKeepsPanel(cfg, id, w.db, n);
    BeatKeepsLink(cfg, id, w, n);
    PanelStepKeepsWorld(cfg, id, w, Beaten(cfg, id, w.db, n));
  }

  /** A step that leaves the panel's tables. */
  lemma OtherStepKeepsWorld(cfg: PanelConfig, id: Identity, w: World, now: World)
    requires WorldOk(cfg, id, w) && now.db == w.db && LifeOk(cfg.crypto, id, now.life)
    requires LinkOk(w.db, now, id.nodeId)
    ensures WorldOk(cfg, id, now)
  {
  }

  lemma AnswerKeepsWorld(cfg: PanelConfig, id: Identity, w: World)
    requires WorldOk(cfg, id, w)
    ensures WorldOk(cfg, id, Answered(cfg, id, w)) && Answered(cfg, id, w).db == w.db
  {
    AnswerKeepsLink(cfg, id, w);
    OtherStepKeepsWorld(cfg, id, w, Answered(cfg, id, w));
  }

  lemma PollKeepsWorld(cfg: PanelConfig, id: Identity, w: World, rev: Revision, out: Outside, at: Time)
    requires WorldOk(cfg, id, w) && w.life.alive && rev in w.answers
    ensures WorldOk(cfg, id, Polling(cfg, id, w, rev, out, at)) && Polling(cfg, id, w, rev, out, at).db == w.db
  {
    WorldFacts(cfg, id, w);
    PollStepKeepsLife(cfg, id, w, rev, out, at);
    PollKeepsLink(cfg, id, w, rev, out, at);
    OtherStepKeepsWorld(cfg, id, w, Polling(cfg, id, w, rev, out, at));
  }

  lemma BeatingKeepsWorld(cfg: PanelConfig, id: Identity, w: World)
    requires WorldOk(cfg, id, w)
    ensures WorldOk(cfg, id, w.(beats := w.beats + {w.life.agent.status.activeRevision}))
  {
    WorldFacts(cfg, id, w);
  }

  lemma RestartKeepsWorld(cfg: PanelConfig, id: Identity, w: World, unreadable: set<File>, now: Time)
    requires WorldOk(cfg, id, w)
    ensures WorldOk(cfg, id, w.(life := LifeStep(cfg.crypto, id, w.life, Restarted(unreadable, now))))
  {
    var after := w.(life := LifeStep(cfg.crypto, id, w.life, Restarted(unreadable, now)));
    StepKeepsLife(cfg.crypto, id, w.life, Restarted(unreadable, now));
    RestartKeepsDisk(cfg.crypto, id, w.life, unreadable, now);
    SameDiskKeepsLink(w.db, w, after, id.nodeId);
    OtherStepKeepsWorld(cfg, id, w, after);
  }

  /** Every event keeps the invariant, and of each row everything but one verdict. */
  lemma NetStepKeepsWorld(cfg: PanelConfig, id: Identity, w: World, e: NetEvent)
    requires SanePanel(cfg) && WorldOk(cfg, id, w)
    ensures WorldOk(cfg, id, NetStep(cfg, id, w, e)) && RowsKept(w.db, NetStep(cfg, id, w, e).db)
  {
    SameRowsKept(w.db);
    match e
    case Administers(op) => if Foreign(op, id.nodeId) { OperatorKeepsWorld(cfg, id, w, op); }
    case Answers => AnswerKeepsWorld(cfg, id, w);
    case Polls(rev, out, at) => if w.life.alive && rev in w.answers { PollKeepsWorld(cfg, id, w, rev, out, at); }
    case Beats => BeatingKeepsWorld(cfg, id, w);
    case GetsReport(m) => if m in w.reports { ReportKeepsWorld(cfg, id, w, m); }
    case GetsBeat(n) => if n in w.beats { BeatKeepsWorld(cfg, id, w, n); }
    case Restarts(unreadable, now) => RestartKeepsWorld(cfg, id, w, unreadable, now);
  }

  lemma FirstWorldIsOk(cfg: PanelConfig, id: Identity)
    ensures WorldOk(cfg, id, FirstWorld)
  {
    EmptyIsOk(cfg);
    FirstLifeIsOk(cfg.crypto, id);
  }

  lemma {:induction false} NetRunKeepsWorld(cfg: PanelConfig, id: Identity, events: seq<NetEvent>)
    requires SanePanel(cfg)
    ensures WorldOk(cfg, id, NetRun(cfg, id, events))
  {
    if events == [] {
      FirstWorldIsOk(cfg, id);
    } else {
      NetRunKeepsWorld(cfg, id, events[..|events| - 1]);
      NetStepKeepsWorld(cfg, id, NetRun(cfg, id, events[..|events| - 1]), events[|events| - 1]);
    }
  }

  // ---- results ----

  /** Between any two moments of a run a row gets at most one verdict and changes in
      nothing else. */
  lemma {:induction false} VerdictsAreFinal(cfg: PanelConfig, id: Identity, events: seq<NetEvent>, n: nat)
    requires SanePanel(cfg) && n <= |events|
    ensures RowsKept(NetRun(cfg, id, events[..n]).db, NetRun(cfg, id, events).db)
  {
    if n == |events| {
      assert events[..n] == events;
      SameRowsKept(NetRun(cfg, id, events).db);
    } else {
      var front := events[..|events| - 1];
      VerdictsAreFinal(cfg, id, front, n);
      assert front[..n] == events[..n];
      NetRunKeepsWorld(cfg, id, front);
      NetStepKeepsWorld(cfg, id, NetRun(cfg, id, front), events[|events| - 1]);
      RowsKeptIsTransitive(
        NetRun(cfg, id, events[..n]).db, NetRun(cfg, id, front).db, NetRun(cfg, id, events).db);
    }
  }

  /** Some attempt that was made with the node's row i switched the active config to it. */
  ghost predicate SwitchedTo(disk: Disk, row: RevisionRow) {
    exists a :: (ActiveConfigFile, a) in disk.writes && 1 <= a <= |disk.attempts| && Matches(row, disk.attempts[a - 1])
  }

  lemma ActivatedIsSwitchedTo(rows: seq<RevisionRow>, disk: Disk, w: World, node: string, i: nat)
    requires MessagesOk(rows, disk, w, node) && UniqueIds(rows)
    requires i < |rows| && Activated(disk, rows[i].id)
    ensures SwitchedTo(disk, rows[i])
  {
    var a :| (ActiveConfigFile, a) in disk.writes && 1 <= a <= |disk.attempts| && disk.attempts[a - 1].id == rows[i].id;
    assert RowOf(rows, node, disk.attempts[a - 1]);
    var j :| 0 <= j < |rows| && rows[j].nodeId == node && Matches(rows[j], disk.attempts[a - 1]);
    assert j == i by { assert rows[j].id == rows[i].id; }
  }

  /** A row that reads applied was switched to by the agent, whatever the network did. */
  lemma AppliedRowWasActivated(cfg: PanelConfig, id: Identity, events: seq<NetEvent>, i: nat)
    requires SanePanel(cfg) && i < |NetRun(cfg, id, events).db.revisions|
    requires
      var row := NetRun(cfg, id, events).db.revisions[i];
      row.nodeId == id.nodeId && row.status.RowApplied?
    ensures
      var w := NetRun(cfg, id, events);
      SwitchedTo(w.life.disk, w.db.revisions[i])
  {
    var w := NetRun(cfg, id, events);
    NetRunKeepsWorld(cfg, id, events);
    WorldFacts(cfg, id, w);
    assert NodeRowOk(w.db.revisions[i], w.life.disk);
    ActivatedIsSwitchedTo(w.db.revisions, w.life.disk, w, id.nodeId, i);
  }

  /** What the panel and the agent hold as active is no revision, or one that an
      attempt named in the active metadata. */
  lemma ActiveWasNamed(cfg: PanelConfig, id: Identity, events: seq<NetEvent>)
    requires SanePanel(cfg)
    ensures
      var w := NetRun(cfg, id, events);
      && NamedOrNone(w.life.disk, w.life.agent.status.activeRevision)
      && (id.nodeId in w.db.nodes ==> NamedOrNone(w.life.disk, w.db.nodes[id.nodeId].activeRevision))
  {
    NetRunKeepsWorld(cfg, id, events);
    WorldFacts(cfg, id, NetRun(cfg, id, events));
  }

  /** A row's rollback target is 0 or a smaller number that the agent had activated. */
  lemma TargetsDescend(cfg: PanelConfig, id: Identity, events: seq<NetEvent>, i: nat)
    requires SanePanel(cfg) && i < |NetRun(cfg, id, events).db.revisions|
    requires NetRun(cfg, id, events).db.revisions[i].nodeId == id.nodeId
    ensures
      var w := NetRun(cfg, id, events);
      var row := w.db.revisions[i];
      row.rollbackTarget < row.number && NamedOrNone(w.life.disk, row.rollbackTarget)
  {
    NetRunKeepsWorld(cfg, id, events);
    assert NodeRowOk(NetRun(cfg, id, events).db.revisions[i], NetRun(cfg, id, events).life.disk);
  }

  lemma NamedFits(cfg: PanelConfig, db: Db, disk: Disk, w: World, node: string, number: int)
    requires PanelOk(cfg, db) && MessagesOk(db.revisions, disk, w, node) && NamedOrNone(disk, number)
    ensures FitsInt32(number)
  {
    if number != 0 {
      var i := NamedRow(db.revisions, disk, w, node, number);
      RowNumberFits(cfg, db, i);
    }
  }

  lemma NamedRow(rows: seq<RevisionRow>, disk: Disk, w: World, node: string, number: int) returns (i: nat)
    requires MessagesOk(rows, disk, w, node) && Named(disk, number)
    ensures i < |rows| && rows[i].number == number
  {
    var a :| (ActiveMetadataFile, a) in disk.writes && 1 <= a <= |disk.attempts| &&
      disk.attempts[a - 1].revisionNumber == number;
    assert RowOf(rows, node, disk.attempts[a - 1]);
    i :| 0 <= i < |rows| && rows[i].nodeId == node && Matches(rows[i], disk.attempts[a - 1]);
  }

  lemma BeatDelivered(cfg: PanelConfig, id: Identity, w: World)
    requires w.life.alive
    ensures
      var n := w.life.agent.status.activeRevision;
      NetStep(cfg, id, NetStep(cfg, id, w, Beats), GetsBeat(n)) ==
        w.(beats := w.beats + {n}, db := Beaten(cfg, id, w.db, n))
  {
  }

  lemma ActiveFits(cfg: PanelConfig, id: Identity, w: World)
    requires WorldOk(cfg, id, w)
    ensures FitsInt32(w.life.agent.status.activeRevision)
  {
    WorldFacts(cfg, id, w);
    NamedFits(cfg, w.db, w.life.disk, w, id.nodeId, w.life.agent.status.activeRevision);
  }

  /** A heartbeat that is delivered before the agent moves on makes both sides agree. */
  lemma FreshBeatAgrees(cfg: PanelConfig, id: Identity, events: seq<NetEvent>)
    requires SanePanel(cfg) && NetRun(cfg, id, events).life.alive
    requires Authorised(cfg.crypto, NetRun(cfg, id, events).db, id.nodeId, id.nodeToken)
    ensures
      var w := NetRun(cfg, id, events);
      var now := NetStep(cfg, id, NetStep(cfg, id, w, Beats), GetsBeat(w.life.agent.status.activeRevision));
      && id.nodeId in now.db.nodes
      && now.db.nodes[id.nodeId].activeRevision == now.life.agent.status.activeRevision
  {
    NetRunKeepsWorld(cfg, id, events);
    BeatAgreesIn(cfg, id, NetRun(cfg, id, events));
  }

  lemma BeatAgreesIn(cfg: PanelConfig, id: Identity, w: World)
    requires WorldOk(cfg, id, w) && w.life.alive && Authorised(cfg.crypto, w.db, id.nodeId, id.nodeToken)
    ensures
      var now := NetStep(cfg, id, NetStep(cfg, id, w, Beats), GetsBeat(w.life.agent.status.activeRevision));
      && id.nodeId in now.db.nodes
      && now.db.nodes[id.nodeId].activeRevision == now.life.agent.status.activeRevision
  {
    ActiveFits(cfg, id, w);
    BeatAgrees(cfg, id, w.db, w.life.agent.status.activeRevision);
    BeatDelivered(cfg, id, w);
  }

  lemma BeatAgrees(cfg: PanelConfig, id: Identity, db: Db, n: int)
    requires Authorised(cfg.crypto, db, id.nodeId, id.nodeToken) && FitsInt32(n)
    ensures
      var now := Beaten(cfg, id, db, n);
      id.nodeId in now.nodes && now.nodes[id.nodeId].activeRevision == n
  {
    TrimmedIsFixed(AGENT_STATUS);
  }
}
