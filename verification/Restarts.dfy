/** A restart right after a successful apply continues with what was persisted. */
module Restarts {
  import opened Text
  import opened Json
  import opened ConfigBundle
  import opened AgentCheck
  import opened Agent
  import opened CrashConsistency
  import opened Restoration
  import opened KeptNumbers
  import opened Panel
  import opened PanelTheorems
  import opened Protocol

  /** After a successful apply a restart has the status of the Persist call, with the
      modes of the identity and one restore event more in the trail. */
  lemma SuccessfulApplyIsRestored(
    c: Crypto, id: Identity, a: Agent, disk: Disk, rev: Revision, out: Outside, now: Time)
    requires DiskOk(id.Dir(), disk) && TidyStatus(a.status) && TidyRunner(out.runner)
    requires NumbersKept(a.status) && KeptRevision(rev)
    requires Apply(c, id, a, disk, rev, out).halt.Running?
    ensures
      var q := Apply(c, id, a, disk, rev, out);
      Continues(id, q.agent.status, NewService(id, q.disk.files, {}, now))
  {
    var q := Apply(c, id, a, disk, rev, out);
    ApplyKeepsDisk(c, id, a, disk, rev, out);
    ApplyKeepsTidy(c, id, a, disk, rev, out);
    ApplyKeepsNumbers(c, id, a, disk, rev, out);
    AppliedHolds(c, id, a, disk, rev, out);
    AppliedIsPositive(c, id, a, disk, rev, q);
    RestartsAs(id, q.disk, q.agent.status, rev, now);
    RestoredContinues(id, q.agent.status, now);
  }

  predicate AllTidy(events: seq<LifeEvent>) {
    forall i :: 0 <= i < |events| && events[i].Polled? ==> TidyRunner(events[i].out.runner)
  }

  /** In every run of an agent. */
  lemma RestartAfterSuccess(
    c: Crypto, id: Identity, events: seq<LifeEvent>, rev: Revision, out: Outside, now: Time)
    requires AllReceived(events) && AllKept(events) && AllTidy(events)
    requires KeptRevision(rev) && TidyRunner(out.runner)
    requires
      var life := LifeRun(c, id, events);
      Apply(c, id, life.agent, life.disk, rev, out).halt.Running?
    ensures
      var life := LifeRun(c, id, events);
      var q := Apply(c, id, life.agent, life.disk, rev, out);
      Continues(id, q.agent.status, NewService(id, q.disk.files, {}, now))
  {
    var life := LifeRun(c, id, events);
    RunKeepsDisk(c, id, events);
    RunKeepsTidy(c, id, events);
    RunKeepsNumbers(c, id, events);
    SuccessfulApplyIsRestored(c, id, life.agent, life.disk, rev, out, now);
  }

  // ---- with the panel and the network ----

  /** Every revision the panel has ever answered with has small numbers. */
  lemma AnswersAreKept(cfg: PanelConfig, id: Identity, w: World, rev: Revision)
    requires WorldOk(cfg, id, w) && rev in w.answers
    ensures KeptRevision(rev)
  {
    assert RowOf(w.db.revisions, id.nodeId, rev);
    var i :| 0 <= i < |w.db.revisions| && w.db.revisions[i].nodeId == id.nodeId && Matches(w.db.revisions[i], rev);
    RowIsIssued(cfg, w.db, i);
    RowNumbersFit(cfg, Seal(w.db.revisions[i]), w.db.origins[i], SourceAt(w.db, i));
    SmallIsKept(rev.revisionNumber);
    SmallIsKept(rev.rollbackTarget);
  }

  lemma RowNumbersFit(cfg: PanelConfig, row: RevisionRow, origin: Origin, source: Option<(RevisionRow, Fields)>)
    requires Issuance(cfg, row, origin, source)
    ensures 0 < row.number <= MAX_INT32 && 0 <= row.rollbackTarget <= MAX_INT32
  {
  }

  /** The process runner's texts are trimmed in every poll. */
  predicate TidyPolls(events: seq<NetEvent>) {
    forall i :: 0 <= i < |events| && events[i].Polls? ==> TidyRunner(events[i].out.runner)
  }

  lemma {:induction false} NetKeepsStatus(cfg: PanelConfig, id: Identity, events: seq<NetEvent>)
    requires SanePanel(cfg) && TidyPolls(events)
    ensures
      var s := NetRun(cfg, id, events).life.agent.status;
      TidyStatus(s) && NumbersKept(s)
  {
    if events == [] {
      InitialIsTidy(Identity("", "", "", "", ""));
      InitialNumbersKept(Identity("", "", "", "", ""));
    } else {
      var front, e := events[..|events| - 1], events[|events| - 1];
      NetKeepsStatus(cfg, id, front);
      NetRunKeepsWorld(cfg, id, front);
      NetStepKeepsStatus(cfg, id, NetRun(cfg, id, front), e);
    }
  }

  lemma NetStepKeepsStatus(cfg: PanelConfig, id: Identity, w: World, e: NetEvent)
    requires WorldOk(cfg, id, w) && TidyStatus(w.life.agent.status) && NumbersKept(w.life.agent.status)
    requires e.Polls? ==> TidyRunner(e.out.runner)
    ensures
      var s := NetStep(cfg, id, w, e).life.agent.status;
      TidyStatus(s) && NumbersKept(s)
  {
    match e
    case Polls(rev, out, at) =>
      if w.life.alive && rev in w.answers {
        AnswersAreKept(cfg, id, w, rev);
        PollKeepsTidy(cfg.crypto, id, w.life.agent, w.life.disk, rev, out, at);
        PollKeepsNumbers(cfg.crypto, id, w.life.agent, w.life.disk, rev, out, at);
      }
    case Restarts(unreadable, now) =>
      NewServiceIsTidy(id, w.life.disk.files, unreadable, now);
      NewServiceKeepsNumbers(id, w.life.disk, unreadable, now);
    case _ =>
  }

  /** In every run of the panel, the network and the agent: when a poll of any revision
      the panel ever answered with is applied, a restart continues from there. */
  lemma PanelRestartAfterSuccess(
    cfg: PanelConfig, id: Identity, events: seq<NetEvent>, rev: Revision, out: Outside, now: Time)
    requires SanePanel(cfg) && TidyPolls(events) && TidyRunner(out.runner)
    requires
      var w := NetRun(cfg, id, events);
      rev in w.answers && Apply(cfg.crypto, id, w.life.agent, w.life.disk, rev, out).halt.Running?
    ensures
      var w := NetRun(cfg, id, events);
      var q := Apply(cfg.crypto, id, w.life.agent, w.life.disk, rev, out);
      Continues(id, q.agent.status, NewService(id, q.disk.files, {}, now))
  {
    var w := NetRun(cfg, id, events);
    NetRunKeepsWorld(cfg, id, events);
    NetKeepsStatus(cfg, id, events);
    AnswersAreKept(cfg, id, w, rev);
    WorldFacts(cfg, id, w);
    SuccessfulApplyIsRestored(cfg.crypto, id, w.life.agent, w.life.disk, rev, out, now);
  }
}
