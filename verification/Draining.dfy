/** How many poll and report rounds empty the queue of pending revisions. */
module Draining {
  import opened Text
  import opened Json
  import opened ConfigBundle
  import opened AgentCheck
  import opened Agent
  import opened CrashConsistency
  import opened Panel
  import opened PanelTheorems
  import opened Protocol

  // ---- an agent that does not die always reports ----

  ghost predicate Survives(out: Outside) {
    forall p: Point :: !out.faults(p).Crashes?
  }

  lemma WritesSurvive(p: Progress, dir: string, rev: Revision, out: Outside)
    requires !p.halt.Crashed? && Survives(out)
    ensures !WriteStaged(p, dir, rev, out.faults).halt.Crashed?
  {
    assert !out.faults(OnRevisionConfig).Crashes? && !out.faults(OnRevisionMetadata).Crashes?;
    assert !out.faults(OnStagedConfig).Crashes? && !out.faults(OnStagedMetadata).Crashes?;
  }

  lemma StageSurvives(id: Identity, p: Progress, rev: Revision, out: Outside)
    requires !p.halt.Crashed? && Survives(out)
    ensures !Stage(id, p, rev, out.faults).halt.Crashed?
  {
    var begun := p.(disk := Begin(p.disk, rev));
    assert !out.faults(OnRevisionDir).Crashes? && !out.faults(OnStagedDir).Crashes?;
    WritesSurvive(Guard(Guard(begun, out.faults(OnRevisionDir)), out.faults(OnStagedDir)), id.Dir(), rev, out);
  }

  lemma ActivateSurvives(id: Identity, p: Progress, rev: Revision, out: Outside)
    requires !p.halt.Crashed? && Survives(out)
    ensures !Activate(id, p, rev, out.faults).halt.Crashed?
  {
    assert !out.faults(OnActiveDir).Crashes? && !out.faults(OnStagedConfigRead).Crashes?;
    assert !out.faults(OnStagedMetadataRead).Crashes? && !out.faults(OnActiveMetadata).Crashes?;
    assert !out.faults(OnActiveConfig).Crashes? && !out.faults(OnState).Crashes?;
  }

  lemma PersistSurvives(p: Progress, out: Outside)
    requires !p.halt.Crashed? && Survives(out)
    ensures !Persist(p, out.faults).halt.Crashed?
  {
    assert !out.faults(OnStateRead).Crashes? && !out.faults(OnStateAgain).Crashes?;
  }

  lemma FinishSurvives(id: Identity, p: Progress, rev: Revision, out: Outside)
    requires !p.halt.Crashed? && Survives(out)
    ensures !Finish(id, p, rev, out).halt.Crashed?
  {
    var (t, ok) := PrepareActiveConfig(p.agent.status, out.runner, out.now);
    assert !out.faults(OnPrepare).Crashes? && !out.faults(OnReturn).Crashes?;
    if p.halt.Running? && ok {
      PersistSurvives(p.(agent := Succeeded(id, p.agent, rev, t.value, out.now)), out);
    }
  }

  lemma CheckedSurvives(id: Identity, p: Progress, rev: Revision, out: Outside)
    requires !p.halt.Crashed? && Survives(out)
    ensures !ApplyChecked(id, p, rev, out).halt.Crashed?
  {
    StageSurvives(id, p, rev, out);
    ActivateSurvives(id, Stage(id, p, rev, out.faults), rev, out);
    FinishSurvives(id, Activate(id, Stage(id, p, rev, out.faults), rev, out.faults), rev, out);
  }

  lemma ApplySurvives(c: Crypto, id: Identity, a: Agent, disk: Disk, rev: Revision, out: Outside)
    requires Survives(out)
    ensures !Apply(c, id, a, disk, rev, out).halt.Crashed?
  {
    var halt := DryRun(id, rev, out.faults(OnCandidate), out.dryRunFailure);
    DryRunSurvives(id, rev, out);
    CheckedSurvives(id, Progress(Stored(a, rev), disk, halt), rev, out);
  }

  lemma DryRunSurvives(id: Identity, rev: Revision, out: Outside)
    requires Survives(out)
    ensures !DryRun(id, rev, out.faults(OnCandidate), out.dryRunFailure).Crashed?
  {
    assert !out.faults(OnCandidate).Crashes?;
  }

  lemma SurvivorReports(c: Crypto, id: Identity, a: Agent, disk: Disk, rev: Revision, out: Outside, at: Time)
    requires Survives(out)
    ensures
      var report := Poll(c, id, a, disk, rev, out, at).1;
      report.Some? && report.value.revisionId == rev.id
  {
    ApplySurvives(c, id, a, disk, rev, out);
    PollReport(c, id, a, disk, rev, out, at, Apply(c, id, a, disk, rev, out));
  }

  lemma PollReport(c: Crypto, id: Identity, a: Agent, disk: Disk, rev: Revision, out: Outside, at: Time, p: Progress)
    requires p == Apply(c, id, a, disk, rev, out) && !p.halt.Crashed?
    ensures
      var report := Poll(c, id, a, disk, rev, out, at).1;
      report.Some? && report.value.revisionId == rev.id
  {
  }

  // ---- rounds ----

  function PendingCount(rows: seq<RevisionRow>, node: string): nat {
    if rows == [] then 0
    else PendingCount(rows[..|rows| - 1], node) + if PendingFor(rows[|rows| - 1], node) then 1 else 0
  }

  /** The events of one delivered round: the panel answers, the agent polls with that
      answer, and the panel gets the report, if the agent lives to send one. */
  function RoundEvents(cfg: PanelConfig, id: Identity, w: World, out: Outside, at: Time): seq<NetEvent> {
    match FindLatestPending(cfg.crypto, w.db, id.nodeId, id.nodeToken)
    case Failure(_) => []
    case Success(row) =>
      [Answers, Polls(Fetched(row), out, at)] +
      (match Poll(cfg.crypto, id, w.life.agent, w.life.disk, Fetched(row), out, at).1
       case None => []
       case Some(m) => [GetsReport(m)])
  }

  function NetSteps(cfg: PanelConfig, id: Identity, w: World, events: seq<NetEvent>): World {
    if events == [] then w
    else NetStep(cfg, id, NetSteps(cfg, id, w, events[..|events| - 1]), events[|events| - 1])
  }

  function Round(cfg: PanelConfig, id: Identity, w: World, out: Outside, at: Time): World {
    NetSteps(cfg, id, w, RoundEvents(cfg, id, w, out, at))
  }

  /** The panel's tables as far as the queue of the node is concerned. */
  predicate QueueOk(cfg: PanelConfig, id: Identity, db: Db) {
    UniqueIds(db.revisions) && Numbered(db.revisions) && Authorised(cfg.crypto, db, id.nodeId, id.nodeToken)
  }

  /** Row i has got a verdict; nothing else of the queue has changed. */
  predicate Handled(db: Db, now: Db, i: nat) {
    && i < |db.revisions| == |now.revisions| && now.revisions == db.revisions[i := now.revisions[i]]
    && Seal(now.revisions[i]) == Seal(db.revisions[i]) && !now.revisions[i].status.RowPending?
    && now.nodes.Keys == db.nodes.Keys
    && forall n :: n in db.nodes ==> now.nodes[n] == db.nodes[n].(activeRevision := now.nodes[n].activeRevision)
  }

  lemma IdFindsRow(rows: seq<RevisionRow>, node: string, i: nat)
    requires UniqueIds(rows) && i < |rows| && rows[i].nodeId == node
    ensures FindRow(rows, node, rows[i].id) == Some(i)
  {
  }

  lemma ReportHandles(cfg: PanelConfig, id: Identity, db: Db, i: nat, m: ReportMessage)
    requires QueueOk(cfg, id, db) && i < |db.revisions| && PendingFor(db.revisions[i], id.nodeId)
    requires m.revisionId == db.revisions[i].id
    ensures Handled(db, Reported(cfg, id, db, m), i)
  {
    IdFindsRow(db.revisions, id.nodeId, i);
  }

  lemma HandledKeepsQueue(cfg: PanelConfig, id: Identity, db: Db, now: Db, i: nat)
    requires QueueOk(cfg, id, db) && Handled(db, now, i)
    ensures QueueOk(cfg, id, now)
  {
    var row := now.revisions[i];
    assert row.nodeId == Seal(row).nodeId && row.number == Seal(row).number && row.id == Seal(row).id;
    NumberedKept(db.revisions, i, row);
  }

  lemma {:induction false} CountAfterVerdict(rows: seq<RevisionRow>, now: seq<RevisionRow>, i: nat, node: string)
    requires i < |rows| && PendingFor(rows[i], node) && |now| == |rows| && now == rows[i := now[i]]
    requires !now[i].status.RowPending?
    ensures PendingCount(now, node) == PendingCount(rows, node) - 1
  {
    var k := |rows| - 1;
    if i == k {
      assert now[..k] == rows[..k];
    } else {
      assert now[..k] == rows[..k][i := now[i]];
      CountAfterVerdict(rows[..k], now[..k], i, node);
    }
  }

  lemma {:induction false} NoneIsPending(rows: seq<RevisionRow>, node: string)
    ensures PendingCount(rows, node) == 0 <==> LatestPending(rows, node).None?
  {
    if rows != [] { NoneIsPending(rows[..|rows| - 1], node); }
  }

  lemma NextIsLower(rows: seq<RevisionRow>, now: seq<RevisionRow>, i: nat, node: string)
    requires Numbered(rows) && LatestPending(rows, node) == Some(i) && |now| == |rows| && now == rows[i := now[i]]
    requires !now[i].status.RowPending?
    ensures LatestPending(now, node).Some? ==> now[LatestPending(now, node).value].number < rows[i].number
  {
    if LatestPending(now, node).Some? {
      var j := LatestPending(now, node).value;
      assert PendingFor(rows[j], node);
      if j < i { NumbersRise(rows, j, i); } else { NumbersRise(rows, i, j); }
    }
  }

  lemma ThreeSteps(cfg: PanelConfig, id: Identity, w: World, a: NetEvent, b: NetEvent, c: NetEvent)
    ensures NetSteps(cfg, id, w, [a, b, c]) == NetStep(cfg, id, NetStep(cfg, id, NetStep(cfg, id, w, a), b), c)
  {
    assert [a, b, c][..2] == [a, b] && [a, b][..1] == [a] && [a][..0] == [];
    assert NetSteps(cfg, id, w, [a]) == NetStep(cfg, id, NetSteps(cfg, id, w, []), a);
    assert NetSteps(cfg, id, w, [a, b]) == NetStep(cfg, id, NetSteps(cfg, id, w, [a]), b);
  }

  /** What a round with a live agent and a report amounts to. */
  lemma RoundIs(cfg: PanelConfig, id: Identity, w: World, out: Outside, at: Time, row: RevisionRow, m: ReportMessage)
    requires w.life.alive && FindLatestPending(cfg.crypto, w.db, id.nodeId, id.nodeToken) == Success(row)
    requires Poll(cfg.crypto, id, w.life.agent, w.life.disk, Fetched(row), out, at).1 == Some(m)
    ensures Round(cfg, id, w, out, at) ==
      Polling(cfg, id, Answered(cfg, id, w), Fetched(row), out, at).(db := Reported(cfg, id, w.db, m))
  {
    var rev := Fetched(row);
    assert RoundEvents(cfg, id, w, out, at) == [Answers, Polls(rev, out, at), GetsReport(m)];
    ThreeSteps(cfg, id, w, Answers, Polls(rev, out, at), GetsReport(m));
    AnswerIsKnown(cfg, id, w, row);
    PollReportIsSent(cfg, id, Answered(cfg, id, w), rev, out, at, m);
  }

  lemma AnswerIsKnown(cfg: PanelConfig, id: Identity, w: World, row: RevisionRow)
    requires FindLatestPending(cfg.crypto, w.db, id.nodeId, id.nodeToken) == Success(row)
    ensures Fetched(row) in Answered(cfg, id, w).answers
    ensures Answered(cfg, id, w).life == w.life && Answered(cfg, id, w).db == w.db
  {
  }

  /** A poll with a known answer, and its report delivered. */
  lemma PollReportIsSent(
    cfg: PanelConfig, id: Identity, w: World, rev: Revision, out: Outside, at: Time, m: ReportMessage)
    requires w.life.alive && rev in w.answers
    requires Poll(cfg.crypto, id, w.life.agent, w.life.disk, rev, out, at).1 == Some(m)
    ensures NetStep(cfg, id, NetStep(cfg, id, w, Polls(rev, out, at)), GetsReport(m)) ==
      Polling(cfg, id, w, rev, out, at).(db := Reported(cfg, id, w.db, m))
  {
    PollsIs(cfg, id, w, rev, out, at);
    PollingSends(cfg, id, w, rev, out, at, m);
    GetsReportIs(cfg, id, Polling(cfg, id, w, rev, out, at), m);
  }

  lemma PollsIs(cfg: PanelConfig, id: Identity, w: World, rev: Revision, out: Outside, at: Time)
    requires w.life.alive && rev in w.answers
    ensures NetStep(cfg, id, w, Polls(rev, out, at)) == Polling(cfg, id, w, rev, out, at)
  {
  }

  lemma GetsReportIs(cfg: PanelConfig, id: Identity, w: World, m: ReportMessage)
    requires m in w.reports
    ensures NetStep(cfg, id, w, GetsReport(m)) == w.(db := Reported(cfg, id, w.db, m))
  {
  }

  lemma PollingSends(cfg: PanelConfig, id: Identity, w: World, rev: Revision, out: Outside, at: Time, m: ReportMessage)
    requires Poll(cfg.crypto, id, w.life.agent, w.life.disk, rev, out, at).1 == Some(m)
    ensures m in Polling(cfg, id, w, rev, out, at).reports && Polling(cfg, id, w, rev, out, at).db == w.db
  {
  }

  lemma PollingLives(cfg: PanelConfig, id: Identity, w: World, rev: Revision, out: Outside, at: Time)
    requires Survives(out)
    ensures Polling(cfg, id, w, rev, out, at).life.alive
  {
    ApplySurvives(cfg.crypto, id, w.life.agent, w.life.disk, rev, out);
  }

  lemma RoundReports(cfg: PanelConfig, id: Identity, w: World, out: Outside, at: Time, i: nat)
    requires Authorised(cfg.crypto, w.db, id.nodeId, id.nodeToken) && Survives(out) && w.life.alive
    requires LatestPending(w.db.revisions, id.nodeId) == Some(i)
    ensures Round(cfg, id, w, out, at).life.alive
    ensures exists m: ReportMessage ::
              m.revisionId == w.db.revisions[i].id && Round(cfg, id, w, out, at).db == Reported(cfg, id, w.db, m)
  {
    var row := w.db.revisions[i];
    SurvivorReports(cfg.crypto, id, w.life.agent, w.life.disk, Fetched(row), out, at);
    var report := Poll(cfg.crypto, id, w.life.agent, w.life.disk, Fetched(row), out, at).1;
    RoundIs(cfg, id, w, out, at, row, report.value);
    PollingLives(cfg, id, Answered(cfg, id, w), Fetched(row), out, at);
  }

  /** A round handles exactly the pending row with the highest number, whatever its
      verdict; the next one to be handled has a lower number. */
  lemma RoundHandlesHighest(cfg: PanelConfig, id: Identity, w: World, out: Outside, at: Time, i: nat)
    requires QueueOk(cfg, id, w.db) && w.life.alive && Survives(out)
    requires LatestPending(w.db.revisions, id.nodeId) == Some(i)
    ensures
      var now := Round(cfg, id, w, out, at);
      && QueueOk(cfg, id, now.db) && now.life.alive && Handled(w.db, now.db, i)
      && PendingCount(now.db.revisions, id.nodeId) == PendingCount(w.db.revisions, id.nodeId) - 1
      && var next := LatestPending(now.db.revisions, id.nodeId);
         next.Some? ==> now.db.revisions[next.value].number < w.db.revisions[i].number
  {
    RoundReports(cfg, id, w, out, at, i);
    var now := Round(cfg, id, w, out, at);
    var m: ReportMessage :| m.revisionId == w.db.revisions[i].id && now.db == Reported(cfg, id, w.db, m);
    ReportHandles(cfg, id, w.db, i, m);
    HandledKeepsQueue(cfg, id, w.db, now.db, i);
    CountAfterVerdict(w.db.revisions, now.db.revisions, i, id.nodeId);
    NextIsLower(w.db.revisions, now.db.revisions, i, id.nodeId);
  }

  type Advance = (World, Outside, Time) -> World

  function Rounds(cfg: PanelConfig, id: Identity): Advance {
    (w, out, at) => Round(cfg, id, w, out, at)
  }

  function Drained(advance: Advance, w: World, rounds: seq<(Outside, Time)>): World
    decreases |rounds|
  {
    if rounds == [] then w else Drained(advance, advance(w, rounds[0].0, rounds[0].1), rounds[1..])
  }

  /** The numbers that the rounds handle, in order. */
  function Visited(advance: Advance, node: string, w: World, rounds: seq<(Outside, Time)>): seq<int>
    decreases |rounds|
  {
    if rounds == [] then []
    else
      (match LatestPending(w.db.revisions, node) case Some(i) => [w.db.revisions[i].number] case None => [])
      + Visited(advance, node, advance(w, rounds[0].0, rounds[0].1), rounds[1..])
  }

  predicate Descending(numbers: seq<int>) {
    forall i, j :: 0 <= i < j < |numbers| ==> numbers[j] < numbers[i]
  }

  /** The first number that rounds visit is the highest pending one. */
  predicate StartsHighest(visited: seq<int>, rows: seq<RevisionRow>, node: string) {
    visited != [] ==>
      LatestPending(rows, node).Some? && visited[0] == rows[LatestPending(rows, node).value].number
  }

  lemma EmptyQueue(cfg: PanelConfig, id: Identity, db: Db)
    requires QueueOk(cfg, id, db)
    ensures PendingCount(db.revisions, id.nodeId) == 0 <==>
      FindLatestPending(cfg.crypto, db, id.nodeId, id.nodeToken) == Failure(NotFound)
  {
    NoneIsPending(db.revisions, id.nodeId);
  }

  /** p pending rows take exactly p delivered rounds, in descending order of number. */
  lemma {:induction false} RoundsDrainTheQueue(
    cfg: PanelConfig, id: Identity, w: World, rounds: seq<(Outside, Time)>)
    requires QueueOk(cfg, id, w.db) && w.life.alive
    requires forall k :: 0 <= k < |rounds| ==> Survives(rounds[k].0)
    requires |rounds| <= PendingCount(w.db.revisions, id.nodeId)
    ensures
      var now := Drained(Rounds(cfg, id), w, rounds);
      && PendingCount(now.db.revisions, id.nodeId) == PendingCount(w.db.revisions, id.nodeId) - |rounds|
      && (|rounds| == PendingCount(w.db.revisions, id.nodeId) <==>
          FindLatestPending(cfg.crypto, now.db, id.nodeId, id.nodeToken) == Failure(NotFound))
    ensures
      var visited := Visited(Rounds(cfg, id), id.nodeId, w, rounds);
      |visited| == |rounds| && Descending(visited) && StartsHighest(visited, w.db.revisions, id.nodeId)
    decreases |rounds|
  {
    if rounds == [] {
      EmptyQueue(cfg, id, w.db);
    } else {
      NoneIsPending(w.db.revisions, id.nodeId);
      var i := LatestPending(w.db.revisions, id.nodeId).value;
      FirstRound(cfg, id, w, rounds[0].0, rounds[0].1, i);
      var next := Rounds(cfg, id)(w, rounds[0].0, rounds[0].1);
      RoundsDrainTheQueue(cfg, id, next, rounds[1..]);
      DescendingFrom(w.db.revisions[i].number, Visited(Rounds(cfg, id), id.nodeId, next, rounds[1..]));
    }
  }

  /** One round, with what it leaves for the next. */
  lemma FirstRound(cfg: PanelConfig, id: Identity, w: World, out: Outside, at: Time, i: nat)
    requires QueueOk(cfg, id, w.db) && w.life.alive && Survives(out)
    requires LatestPending(w.db.revisions, id.nodeId) == Some(i)
    ensures
      var next := Rounds(cfg, id)(w, out, at);
      && QueueOk(cfg, id, next.db) && next.life.alive
      && PendingCount(next.db.revisions, id.nodeId) == PendingCount(w.db.revisions, id.nodeId) - 1
      && (LatestPending(next.db.revisions, id.nodeId).Some? ==>
           next.db.revisions[LatestPending(next.db.revisions, id.nodeId).value].number < w.db.revisions[i].number)
  {
    RoundHandlesHighest(cfg, id, w, out, at, i);
  }

  lemma DescendingFrom(first: int, rest: seq<int>)
    requires Descending(rest) && (rest != [] ==> rest[0] < first)
    ensures Descending([first] + rest)
  {
  }

  // ---- in any run of the protocol ----

  lemma {:induction false} RunContinues(cfg: PanelConfig, id: Identity, events: seq<NetEvent>, more: seq<NetEvent>)
    ensures NetSteps(cfg, id, NetRun(cfg, id, events), more) == NetRun(cfg, id, events + more)
  {
    if more == [] {
      assert events + more == events;
    } else {
      var front := more[..|more| - 1];
      assert (events + more)[..|events + more| - 1] == events + front;
      RunContinues(cfg, id, events, front);
    }
  }

  lemma {:induction false} StepsContinue(
    cfg: PanelConfig, id: Identity, w: World, first: seq<NetEvent>, more: seq<NetEvent>)
    ensures NetSteps(cfg, id, NetSteps(cfg, id, w, first), more) == NetSteps(cfg, id, w, first + more)
  {
    if more == [] {
      assert first + more == first;
    } else {
      var front := more[..|more| - 1];
      assert (first + more)[..|first + more| - 1] == first + front;
      StepsContinue(cfg, id, w, first, front);
    }
  }

  type Plan = (World, Outside, Time) -> seq<NetEvent>

  function Plans(cfg: PanelConfig, id: Identity): Plan {
    (w, out, at) => RoundEvents(cfg, id, w, out, at)
  }

  /** The events of the rounds, one after the other. */
  function DrainEvents(plan: Plan, advance: Advance, w: World, rounds: seq<(Outside, Time)>): seq<NetEvent>
    decreases |rounds|
  {
    if rounds == [] then []
    else
      plan(w, rounds[0].0, rounds[0].1)
      + DrainEvents(plan, advance, advance(w, rounds[0].0, rounds[0].1), rounds[1..])
  }

  ghost predicate Carries(cfg: PanelConfig, id: Identity, plan: Plan, advance: Advance) {
    forall w, out, at :: advance(w, out, at) == NetSteps(cfg, id, w, plan(w, out, at))
  }

  lemma CarriesOne(
    cfg: PanelConfig, id: Identity, plan: Plan, advance: Advance, w: World, out: Outside, at: Time)
    requires Carries(cfg, id, plan, advance)
    ensures advance(w, out, at) == NetSteps(cfg, id, w, plan(w, out, at))
  {
  }

  lemma {:induction false} DrainedBySteps(
    cfg: PanelConfig, id: Identity, plan: Plan, advance: Advance, w: World, rounds: seq<(Outside, Time)>)
    requires Carries(cfg, id, plan, advance)
    ensures Drained(advance, w, rounds) == NetSteps(cfg, id, w, DrainEvents(plan, advance, w, rounds))
    decreases |rounds|
  {
    if rounds != [] {
      var first, next := plan(w, rounds[0].0, rounds[0].1), advance(w, rounds[0].0, rounds[0].1);
      CarriesOne(cfg, id, plan, advance, w, rounds[0].0, rounds[0].1);
      DrainedBySteps(cfg, id, plan, advance, next, rounds[1..]);
      StepsContinue(cfg, id, w, first, DrainEvents(plan, advance, next, rounds[1..]));
    }
  }

  /** Rounds are a continuation of the run. */
  lemma DrainedIsARun(cfg: PanelConfig, id: Identity, events: seq<NetEvent>, rounds: seq<(Outside, Time)>)
    ensures
      var w := NetRun(cfg, id, events);
      Drained(Rounds(cfg, id), w, rounds) ==
        NetRun(cfg, id, events + DrainEvents(Plans(cfg, id), Rounds(cfg, id), w, rounds))
  {
    var w := NetRun(cfg, id, events);
    DrainedBySteps(cfg, id, Plans(cfg, id), Rounds(cfg, id), w, rounds);
    RunContinues(cfg, id, events, DrainEvents(Plans(cfg, id), Rounds(cfg, id), w, rounds));
  }

  lemma RunQueueIsOk(cfg: PanelConfig, id: Identity, events: seq<NetEvent>)
    requires SanePanel(cfg) && Authorised(cfg.crypto, NetRun(cfg, id, events).db, id.nodeId, id.nodeToken)
    ensures QueueOk(cfg, id, NetRun(cfg, id, events).db)
  {
    NetRunKeepsWorld(cfg, id, events);
  }

  /** From any reachable state with a live agent of a registered, enabled node: the run
      that goes on with as many delivered rounds as rows are pending ends with none. */
  lemma RunsCanDrain(cfg: PanelConfig, id: Identity, events: seq<NetEvent>, rounds: seq<(Outside, Time)>)
    requires SanePanel(cfg) && NetRun(cfg, id, events).life.alive
    requires Authorised(cfg.crypto, NetRun(cfg, id, events).db, id.nodeId, id.nodeToken)
    requires forall k :: 0 <= k < |rounds| ==> Survives(rounds[k].0)
    requires |rounds| == PendingCount(NetRun(cfg, id, events).db.revisions, id.nodeId)
    ensures
      var w := NetRun(cfg, id, events);
      var now := NetRun(cfg, id, events + DrainEvents(Plans(cfg, id), Rounds(cfg, id), w, rounds));
      && PendingCount(now.db.revisions, id.nodeId) == 0 && WorldOk(cfg, id, now)
      && FindLatestPending(cfg.crypto, now.db, id.nodeId, id.nodeToken) == Failure(NotFound)
  {
    var w := NetRun(cfg, id, events);
    RunQueueIsOk(cfg, id, events);
    RoundsDrainTheQueue(cfg, id, w, rounds);
    DrainedIsARun(cfg, id, events, rounds);
    NetRunKeepsWorld(cfg, id, events + DrainEvents(Plans(cfg, id), Rounds(cfg, id), w, rounds));
  }
}
