/** The life of a node over every run: registration, draining and disabling. */
module Lifecycle {
  import opened Text
  import opened Json
  import opened ConfigBundle
  import opened Panel
  import opened PanelTheorems
  import R = Render

  // ---- registration ----

  predicate NodesSane(db: Db) {
    forall n :: n in db.nodes ==>
      !db.nodes[n].drainState.FullyDrained? && (db.nodes[n].registered <==> db.nodes[n].authTokenHash.Some?)
  }

  /** A token is used exactly when its node is registered. */
  predicate TokensOk(db: Db) {
    forall h :: h in db.bootstraps ==>
      && db.bootstraps[h].nodeId in db.nodes && !db.bootstraps[h].status.TokenRevoked?
      && (db.bootstraps[h].status.TokenUsed? <==> db.nodes[db.bootstraps[h].nodeId].registered)
  }

  predicate TokensDiffer(db: Db) {
    forall h, h' :: h in db.bootstraps && h' in db.bootstraps ==>
      db.bootstraps[h].nodeId == db.bootstraps[h'].nodeId ==> h == h'
  }

  predicate NodesHaveTokens(db: Db) {
    forall n :: n in db.nodes ==> HasToken(db, n)
  }

  predicate OneTokenPerNode(db: Db) {
    TokensDiffer(db) && NodesHaveTokens(db)
  }

  predicate HasToken(db: Db, n: string) {
    exists h :: h in db.bootstraps && db.bootstraps[h].nodeId == n
  }

  /** Registration rows and registered nodes match one to one. */
  predicate RegistrationsOk(db: Db) {
    && (forall i :: 0 <= i < |db.registrations| ==> RegistrationOk(db, db.registrations[i]))
    && (forall i, j :: 0 <= i < j < |db.registrations| ==> db.registrations[i].nodeId != db.registrations[j].nodeId)
    && (forall n :: n in db.nodes && db.nodes[n].registered ==> HasRegistration(db, n))
  }

  predicate RegistrationOk(db: Db, row: RegistrationRow) {
    && row.nodeId in db.nodes && db.nodes[row.nodeId].registered
    && row.tokenHash in db.bootstraps && db.bootstraps[row.tokenHash].nodeId == row.nodeId
  }

  predicate HasRegistration(db: Db, n: string) {
    exists i :: 0 <= i < |db.registrations| && db.registrations[i].nodeId == n
  }

  /** Auth hashes name their node. */
  predicate AuthHashesUnique(db: Db) {
    forall n, m :: n in db.nodes && m in db.nodes && db.nodes[n].authTokenHash.Some? ==>
      db.nodes[n].authTokenHash == db.nodes[m].authTokenHash ==> n == m
  }

  /** One bootstrap token per node; the token is used, the node is registered, the
      node has an auth hash and it has a registration row all at once. */
  predicate LifecycleOk(db: Db) {
    NodesSane(db) && TokensOk(db) && OneTokenPerNode(db) && RegistrationsOk(db) && AuthHashesUnique(db)
  }

  /** An auth hash, once set, is never changed. */
  predicate AuthKept(db: Db, now: Db) {
    forall n :: n in db.nodes && db.nodes[n].registered ==>
      n in now.nodes && now.nodes[n].registered && now.nodes[n].authTokenHash == db.nodes[n].authTokenHash
  }

  // a new node and its token

  lemma NewTokenDiffers(db: Db, now: Db, id: string, hash: string)
    requires TokensOk(db) && TokensDiffer(db) && id !in db.nodes && hash !in db.bootstraps
    requires forall n :: n in db.nodes ==> n in now.nodes && now.nodes[n] == db.nodes[n]
    requires id in now.nodes && !now.nodes[id].registered
    requires now.bootstraps.Keys == db.bootstraps.Keys + {hash}
    requires forall h :: h in db.bootstraps ==> now.bootstraps[h] == db.bootstraps[h]
    requires now.bootstraps[hash].nodeId == id && now.bootstraps[hash].status.TokenActive?
    ensures TokensOk(now) && TokensDiffer(now)
  {
  }

  lemma NewNodeHasToken(db: Db, now: Db, id: string, hash: string)
    requires NodesHaveTokens(db)
    requires now.nodes.Keys == db.nodes.Keys + {id}
    requires now.bootstraps.Keys == db.bootstraps.Keys + {hash} && hash !in db.bootstraps
    requires forall h :: h in db.bootstraps ==> now.bootstraps[h] == db.bootstraps[h]
    requires now.bootstraps[hash].nodeId == id
    ensures NodesHaveTokens(now)
  {
    forall n | n in now.nodes ensures HasToken(now, n) {
      if n == id {
        assert now.bootstraps[hash].nodeId == n;
      } else {
        assert HasToken(db, n);
        var h :| h in db.bootstraps && db.bootstraps[h].nodeId == n;
        assert now.bootstraps[h].nodeId == n;
      }
    }
  }

  lemma NewNodeKeepsRegistrations(db: Db, now: Db, id: string, hash: string)
    requires RegistrationsOk(db) && id !in db.nodes
    requires now.nodes.Keys == db.nodes.Keys + {id} && !now.nodes[id].registered
    requires forall n :: n in db.nodes ==> now.nodes[n] == db.nodes[n]
    requires now.bootstraps.Keys == db.bootstraps.Keys + {hash} && hash !in db.bootstraps
    requires forall h :: h in db.bootstraps ==> now.bootstraps[h] == db.bootstraps[h]
    requires now.registrations == db.registrations
    ensures RegistrationsOk(now)
  {
    forall i | 0 <= i < |now.registrations| ensures RegistrationOk(now, now.registrations[i]) {
      assert RegistrationOk(db, db.registrations[i]);
    }
    forall n | n in now.nodes && now.nodes[n].registered ensures HasRegistration(now, n) {
      assert HasRegistration(db, n);
    }
  }

  lemma NewNodeIsSane(db: Db, now: Db, id: string)
    requires NodesSane(db) && AuthHashesUnique(db) && id !in db.nodes
    requires now.nodes.Keys == db.nodes.Keys + {id}
    requires forall n :: n in db.nodes ==> now.nodes[n] == db.nodes[n]
    requires now.nodes[id].authTokenHash.None? && !now.nodes[id].registered && now.nodes[id].drainState.NotDraining?
    ensures NodesSane(now) && AuthHashesUnique(now) && AuthKept(db, now)
  {
  }

  lemma BootstrapKeepsLifecycle(
    c: Crypto, db: Db, nodeId: string, token: string, hostname: string, region: string, countryCode: string,
    expiresAt: int)
    requires LifecycleOk(db)
    ensures
      var now := CreateBootstrap(c, db, nodeId, token, hostname, region, countryCode, expiresAt).0;
      LifecycleOk(now) && AuthKept(db, now)
  {
    var (now, result) := CreateBootstrap(c, db, nodeId, token, hostname, region, countryCode, expiresAt);
    if result.Success? { NewNodeKeepsLifecycle(db, now, nodeId, c.hash(token)); }
  }

  lemma NewNodeKeepsLifecycle(db: Db, now: Db, id: string, hash: string)
    requires LifecycleOk(db) && id !in db.nodes && hash !in db.bootstraps
    requires now.nodes.Keys == db.nodes.Keys + {id} && forall n :: n in db.nodes ==> now.nodes[n] == db.nodes[n]
    requires now.nodes[id].authTokenHash.None? && !now.nodes[id].registered && now.nodes[id].drainState.NotDraining?
    requires now.bootstraps.Keys == db.bootstraps.Keys + {hash}
    requires forall h :: h in db.bootstraps ==> now.bootstraps[h] == db.bootstraps[h]
    requires now.bootstraps[hash].nodeId == id && now.bootstraps[hash].status.TokenActive?
    requires now.registrations == db.registrations
    ensures LifecycleOk(now) && AuthKept(db, now)
  {
    NewTokenDiffers(db, now, id, hash);
    NewNodeHasToken(db, now, id, hash);
    NewNodeKeepsRegistrations(db, now, id, hash);
    NewNodeIsSane(db, now, id);
  }

  // the one registration of a node

  /** The node id has become registered with its token; nothing else has changed. */
  predicate RegisteredNow(db: Db, now: Db, id: string, hash: string) {
    && id in db.nodes && hash in db.bootstraps && db.bootstraps[hash].nodeId == id && !db.nodes[id].registered
    && now.nodes.Keys == db.nodes.Keys && now.nodes[id].registered
    && (forall n :: n in db.nodes && n != id ==> now.nodes[n] == db.nodes[n])
    && now.bootstraps.Keys == db.bootstraps.Keys
    && (forall h :: h in db.bootstraps && h != hash ==> now.bootstraps[h] == db.bootstraps[h])
    && now.bootstraps[hash] == db.bootstraps[hash].(status := TokenUsed)
    && now.registrations == db.registrations + [RegistrationRow(id, hash)]
  }

  lemma RegistrationKeepsTokens(db: Db, now: Db, id: string, hash: string)
    requires TokensOk(db) && TokensDiffer(db) && RegisteredNow(db, now, id, hash)
    ensures TokensOk(now) && TokensDiffer(now)
  {
    forall h | h in now.bootstraps ensures now.bootstraps[h].nodeId == db.bootstraps[h].nodeId {}
  }

  lemma RegistrationKeepsTokenOwners(db: Db, now: Db, id: string, hash: string)
    requires NodesHaveTokens(db) && RegisteredNow(db, now, id, hash)
    ensures NodesHaveTokens(now)
  {
    forall n | n in now.nodes ensures HasToken(now, n) {
      assert HasToken(db, n);
      var h :| h in db.bootstraps && db.bootstraps[h].nodeId == n;
      assert now.bootstraps[h].nodeId == n;
    }
  }

  lemma RegistrationSetsAuth(db: Db, now: Db, id: string, hash: string)
    requires NodesSane(db) && AuthHashesUnique(db) && RegisteredNow(db, now, id, hash)
    requires now.nodes[id].authTokenHash.Some? && !now.nodes[id].drainState.FullyDrained?
    requires !AuthHashTaken(db, now.nodes[id].authTokenHash.value, id)
    ensures NodesSane(now) && AuthHashesUnique(now) && AuthKept(db, now)
  {
  }

  lemma RegistrationIsNew(db: Db, now: Db, id: string, hash: string)
    requires RegistrationsOk(db) && RegisteredNow(db, now, id, hash)
    ensures RegistrationsOk(now)
  {
    var k := |db.registrations|;
    forall i | 0 <= i < |now.registrations|
      ensures RegistrationOk(now, now.registrations[i]) && (i < k ==> now.registrations[i].nodeId != id)
    {
      if i < k { assert RegistrationOk(db, db.registrations[i]); }
    }
    forall n | n in now.nodes && now.nodes[n].registered ensures HasRegistration(now, n) {
      if n == id {
        assert now.registrations[k].nodeId == n;
      } else {
        assert HasRegistration(db, n);
        var i :| 0 <= i < k && db.registrations[i].nodeId == n;
        assert now.registrations[i].nodeId == n;
      }
    }
  }

  lemma RegistrationKeepsLifecycle(db: Db, now: Db, id: string, hash: string)
    requires LifecycleOk(db) && RegisteredNow(db, now, id, hash)
    requires now.nodes[id].authTokenHash.Some? && !now.nodes[id].drainState.FullyDrained?
    requires !AuthHashTaken(db, now.nodes[id].authTokenHash.value, id)
    ensures LifecycleOk(now) && AuthKept(db, now)
  {
    RegistrationKeepsTokens(db, now, id, hash);
    RegistrationKeepsTokenOwners(db, now, id, hash);
    RegistrationIsNew(db, now, id, hash);
    RegistrationSetsAuth(db, now, id, hash);
  }

  lemma RegistrationChanges(
    c: Crypto, db: Db, nodeId: string, token: string, hostname: string, nodeToken: string, at: int)
    requires NodesSane(db) && TokensOk(db)
    requires Register(c, db, nodeId, token, hostname, nodeToken, at).1.Success?
    ensures
      var now := Register(c, db, nodeId, token, hostname, nodeToken, at).0;
      var id := db.bootstraps[c.hash(token)].nodeId;
      && RegisteredNow(db, now, id, c.hash(token))
      && now.nodes[id].authTokenHash == Some(c.hash(nodeToken)) && !now.nodes[id].drainState.FullyDrained?
      && !AuthHashTaken(db, c.hash(nodeToken), id)
  {
  }

  lemma RegisterKeepsLifecycle(
    c: Crypto, db: Db, nodeId: string, token: string, hostname: string, nodeToken: string, at: int)
    requires LifecycleOk(db)
    ensures
      var now := Register(c, db, nodeId, token, hostname, nodeToken, at).0;
      LifecycleOk(now) && AuthKept(db, now)
  {
    var (now, result) := Register(c, db, nodeId, token, hostname, nodeToken, at);
    if result.Success? {
      var hash := c.hash(token);
      var id := db.bootstraps[hash].nodeId;
      RegistrationChanges(c, db, nodeId, token, hostname, nodeToken, at);
      RegistrationKeepsLifecycle(db, now, id, hash);
    }
  }

  // changes of one row that leave its registration

  predicate SameRegistry(db: Db, now: Db) {
    && now.bootstraps == db.bootstraps && now.registrations == db.registrations
    && now.nodes.Keys == db.nodes.Keys
    && forall n :: n in db.nodes ==>
         now.nodes[n].registered == db.nodes[n].registered && now.nodes[n].authTokenHash == db.nodes[n].authTokenHash
         && !now.nodes[n].drainState.FullyDrained?
  }

  lemma SameRegistryKeepsTokens(db: Db, now: Db)
    requires TokensOk(db) && OneTokenPerNode(db) && SameRegistry(db, now)
    ensures TokensOk(now) && OneTokenPerNode(now)
  {
    forall n | n in now.nodes ensures HasToken(now, n) { assert HasToken(db, n); }
  }

  lemma SameRegistryKeepsRegistrations(db: Db, now: Db)
    requires RegistrationsOk(db) && SameRegistry(db, now)
    ensures RegistrationsOk(now)
  {
    forall i | 0 <= i < |now.registrations| ensures RegistrationOk(now, now.registrations[i]) {
      assert RegistrationOk(db, db.registrations[i]);
    }
    forall n | n in now.nodes && now.nodes[n].registered ensures HasRegistration(now, n) {
      assert HasRegistration(db, n);
    }
  }

  lemma SameRegistryKeepsLifecycle(db: Db, now: Db)
    requires LifecycleOk(db) && SameRegistry(db, now)
    ensures LifecycleOk(now) && AuthKept(db, now)
  {
    SameRegistryKeepsTokens(db, now);
    SameRegistryKeepsRegistrations(db, now);
  }

  lemma HeartbeatKeepsLifecycle(c: Crypto, db: Db, nodeId: string, token: string, status: string, active: int)
    requires LifecycleOk(db)
    ensures
      var now := Heartbeat(c, db, nodeId, token, status, active).0;
      LifecycleOk(now) && AuthKept(db, now)
  {
    var (now, result) := Heartbeat(c, db, nodeId, token, status, active);
    if result.Success? { SameRegistryKeepsLifecycle(db, now); }
  }

  lemma TransitionKeepsLifecycle(db: Db, nodeId: string, action: Lifecycle)
    requires LifecycleOk(db)
    ensures
      var now := Transition(db, nodeId, action).0;
      LifecycleOk(now) && AuthKept(db, now)
  {
    var (now, result) := Transition(db, nodeId, action);
    if result.Success? { SameRegistryKeepsLifecycle(db, now); }
  }

  lemma ReportKeepsLifecycle(
    c: Crypto, db: Db, nodeId: string, token: string, revisionId: string, status: ReportStatus, message: string)
    requires LifecycleOk(db)
    ensures
      var now := Report(c, db, nodeId, token, revisionId, status, message).0;
      LifecycleOk(now) && AuthKept(db, now)
  {
    ReportKeepsRegistry(c, db, nodeId, token, revisionId, status, message);
    SameRegistryKeepsLifecycle(db, Report(c, db, nodeId, token, revisionId, status, message).0);
  }

  lemma ReportKeepsRegistry(
    c: Crypto, db: Db, nodeId: string, token: string, revisionId: string, status: ReportStatus, message: string)
    requires NodesSane(db)
    ensures SameRegistry(db, Report(c, db, nodeId, token, revisionId, status, message).0)
  {
  }

  /** Creating a revision adds at most a row, of an enabled node. */
  predicate AddsRowAtMost(db: Db, now: Db) {
    && now == db.(revisions := now.revisions, origins := now.origins)
    && (now.revisions == db.revisions ||
        (|now.revisions| == |db.revisions| + 1 && db.revisions <= now.revisions
         && var n := now.revisions[|db.revisions|].nodeId;
            n in db.nodes && !db.nodes[n].status.Disabled? && db.nodes[n].drainState.NotDraining?))
  }

  lemma InsertAddsRow(c: Crypto, db: Db, id: string, nodeId: string, number: int, target: int, origin: Origin)
    requires CheckCreation(db, nodeId).None?
    ensures AddsRowAtMost(db, InsertRevision(c, db, id, nodeId, number, target, origin).0)
  {
  }

  lemma CreationAddsRow(cfg: PanelConfig, db: Db, op: PanelOp)
    requires op.OpDeploy? || op.OpRollback?
    ensures AddsRowAtMost(db, Step(cfg, db, op))
  {
    if op.OpDeploy? {
      if CheckCreation(db, op.nodeId).None? {
        var input := DeployInput(db, op.nodeId, op.inputs);
        InsertAddsRow(
          cfg.crypto, db, op.id, op.nodeId, input.revisionNumber, input.rollbackTarget,
          Origin(R.RenderPayload(input, cfg.reality), Deployed(input)));
      }
    } else {
      RollbackAddsRow(cfg.crypto, db, op.nodeId, op.revisionId, op.id);
    }
  }

  lemma RollbackAddsRow(c: Crypto, db: Db, nodeId: string, revisionId: string, id: string)
    ensures AddsRowAtMost(db, CreateRollback(c, db, nodeId, revisionId, id).0)
  {
    var found := FindRow(db.revisions, nodeId, revisionId);
    if CheckCreation(db, nodeId).None? && found.Some? && db.revisions[found.value].status.RowApplied?
       && ScanBundle(db.revisions[found.value]).Obj? {
      InsertAddsRow(
        c, db, id, nodeId, MaxNumber(db.revisions, nodeId) + 1, db.nodes[nodeId].activeRevision,
        RollbackOrigin(db, nodeId, found.value));
    }
  }

  lemma StepKeepsLifecycle(cfg: PanelConfig, db: Db, op: PanelOp)
    requires LifecycleOk(db)
    ensures LifecycleOk(Step(cfg, db, op)) && AuthKept(db, Step(cfg, db, op))
  {
    match op
    case OpBootstrap(nodeId, token, hostname, region, countryCode, expiresAt) =>
      BootstrapKeepsLifecycle(cfg.crypto, db, nodeId, token, hostname, region, countryCode, expiresAt);
    case OpRegister(nodeId, token, hostname, nodeToken, at) =>
      RegisterKeepsLifecycle(cfg.crypto, db, nodeId, token, hostname, nodeToken, at);
    case OpHeartbeat(nodeId, token, status, active) =>
      HeartbeatKeepsLifecycle(cfg.crypto, db, nodeId, token, status, active);
    case OpLifecycle(nodeId, action) => TransitionKeepsLifecycle(db, nodeId, action);
    case OpDeploy(_, _, _) =>
      CreationAddsRow(cfg, db, op);
      SameRegistryKeepsLifecycle(db, Step(cfg, db, op));
    case OpRollback(_, _, _) =>
      CreationAddsRow(cfg, db, op);
      SameRegistryKeepsLifecycle(db, Step(cfg, db, op));
    case OpReport(nodeId, token, revisionId, status, message) =>
      ReportKeepsLifecycle(cfg.crypto, db, nodeId, token, revisionId, status, message);
  }

  /** In every reachable state the token is used, the node is registered, it has an
      auth hash and exactly one registration row together; the hash never changes
      again, and no node ever reads as fully drained. */
  lemma {:induction false} RunKeepsLifecycle(cfg: PanelConfig, db: Db, ops: seq<PanelOp>)
    requires LifecycleOk(db)
    ensures LifecycleOk(Run(cfg, db, ops)) && AuthKept(db, Run(cfg, db, ops))
  {
    if ops != [] {
      RunKeepsLifecycle(cfg, db, ops[..|ops| - 1]);
      StepKeepsLifecycle(cfg, Run(cfg, db, ops[..|ops| - 1]), ops[|ops| - 1]);
    }
  }

  lemma ReachableLifecycleIsOk(cfg: PanelConfig, ops: seq<PanelOp>)
    ensures LifecycleOk(Run(cfg, EmptyDb, ops))
  {
    RunKeepsLifecycle(cfg, EmptyDb, ops);
  }

  /** A bootstrap token registers its node once: every later use is refused. */
  lemma SecondRegistrationIsRefused(
    cfg: PanelConfig, db: Db, nodeId: string, token: string, hostname: string, nodeToken: string, at: int,
    ops: seq<PanelOp>, nodeId': string, token': string, hostname': string, nodeToken': string, at': int)
    requires LifecycleOk(db)
    requires Register(cfg.crypto, db, nodeId, token, hostname, nodeToken, at).1.Success?
    ensures
      var later := Run(cfg, Register(cfg.crypto, db, nodeId, token, hostname, nodeToken, at).0, ops);
      var id := db.bootstraps[cfg.crypto.hash(token)].nodeId;
      var again := Register(cfg.crypto, later, nodeId', token', hostname', nodeToken', at');
      again.1.Success? ==> later.bootstraps[cfg.crypto.hash(token')].nodeId != id
  {
    var once := Register(cfg.crypto, db, nodeId, token, hostname, nodeToken, at).0;
    RegisterKeepsLifecycle(cfg.crypto, db, nodeId, token, hostname, nodeToken, at);
    RunKeepsLifecycle(cfg, once, ops);
  }

  // ---- disabled nodes ----

  /** Nothing about the node has changed: its row, its revisions, and no new ones. */
  ghost predicate Frozen(db: Db, now: Db, n: string) {
    && n in db.nodes && n in now.nodes && now.nodes[n] == db.nodes[n]
    && |db.revisions| <= |now.revisions|
    && (forall i :: 0 <= i < |db.revisions| ==> now.revisions[i].nodeId == db.revisions[i].nodeId)
    && (forall i :: 0 <= i < |db.revisions| && db.revisions[i].nodeId == n ==> now.revisions[i] == db.revisions[i])
    && (forall i :: |db.revisions| <= i < |now.revisions| ==> now.revisions[i].nodeId != n)
  }

  lemma FrozenIsTransitive(a: Db, b: Db, c: Db, n: string)
    requires Frozen(a, b, n) && Frozen(b, c, n)
    ensures Frozen(a, c, n)
  {
    forall i | 0 <= i < |a.revisions| && a.revisions[i].nodeId == n ensures c.revisions[i] == a.revisions[i] {
      assert b.revisions[i].nodeId == n;
    }
    forall i | |a.revisions| <= i < |c.revisions| ensures c.revisions[i].nodeId != n {
      if i < |b.revisions| { assert c.revisions[i].nodeId == b.revisions[i].nodeId; }
    }
  }

  predicate Enables(op: PanelOp, n: string) {
    op == OpLifecycle(n, Enable)
  }

  lemma StepFreezesDisabled(cfg: PanelConfig, db: Db, op: PanelOp, n: string)
    requires n in db.nodes && db.nodes[n].status.Disabled? && !Enables(op, n)
    ensures Frozen(db, Step(cfg, db, op), n)
  {
    if op.OpDeploy? || op.OpRollback? {
      CreationAddsRow(cfg, db, op);
      AddedRowFreezes(db, Step(cfg, db, op), n);
    } else if op.OpReport? {
      ReportFreezesDisabled(cfg.crypto, db, op.nodeId, op.token, op.revisionId, op.reported, op.errorMessage, n);
    } else {
      NodeStepKeepsRevisions(cfg, db, op);
      NodeStepFreezesDisabled(cfg, db, op, n);
      SameRevisionsFreeze(db, Step(cfg, db, op), n);
    }
  }

  lemma AddedRowFreezes(db: Db, now: Db, n: string)
    requires n in db.nodes && db.nodes[n].status.Disabled? && AddsRowAtMost(db, now)
    ensures Frozen(db, now, n)
  {
  }

  lemma SameRevisionsFreeze(db: Db, now: Db, n: string)
    requires now.revisions == db.revisions && n in db.nodes && n in now.nodes && now.nodes[n] == db.nodes[n]
    ensures Frozen(db, now, n)
  {
  }

  lemma ReportFreezesDisabled(
    c: Crypto, db: Db, nodeId: string, token: string, revisionId: string, status: ReportStatus, message: string, n: string)
    requires n in db.nodes && db.nodes[n].status.Disabled?
    ensures Frozen(db, Report(c, db, nodeId, token, revisionId, status, message).0, n)
  {
  }

  lemma RegisterFreezesDisabled(
    c: Crypto, db: Db, nodeId: string, token: string, hostname: string, nodeToken: string, at: int, n: string)
    requires n in db.nodes && db.nodes[n].status.Disabled?
    ensures
      var now := Register(c, db, nodeId, token, hostname, nodeToken, at).0;
      n in now.nodes && now.nodes[n] == db.nodes[n]
  {
  }

  lemma HeartbeatFreezesDisabled(c: Crypto, db: Db, nodeId: string, token: string, status: string, active: int, n: string)
    requires n in db.nodes && db.nodes[n].status.Disabled?
    ensures
      var now := Heartbeat(c, db, nodeId, token, status, active).0;
      n in now.nodes && now.nodes[n] == db.nodes[n]
  {
  }

  lemma TransitionFreezesDisabled(db: Db, nodeId: string, action: Lifecycle, n: string)
    requires n in db.nodes && db.nodes[n].status.Disabled? && !(nodeId == n && action.Enable?)
    ensures
      var now := Transition(db, nodeId, action).0;
      n in now.nodes && now.nodes[n] == db.nodes[n]
  {
  }

  lemma NodeStepFreezesDisabled(cfg: PanelConfig, db: Db, op: PanelOp, n: string)
    requires ChangesNodes(op) && n in db.nodes && db.nodes[n].status.Disabled? && !Enables(op, n)
    ensures n in Step(cfg, db, op).nodes && Step(cfg, db, op).nodes[n] == db.nodes[n]
  {
    match op
    case OpBootstrap(_, _, _, _, _, _) =>
    case OpRegister(nodeId, token, hostname, nodeToken, at) =>
      RegisterFreezesDisabled(cfg.crypto, db, nodeId, token, hostname, nodeToken, at, n);
    case OpHeartbeat(nodeId, token, status, active) =>
      HeartbeatFreezesDisabled(cfg.crypto, db, nodeId, token, status, active, n);
    case OpLifecycle(nodeId, action) => TransitionFreezesDisabled(db, nodeId, action, n);
  }

  /** Until it is enabled, a disabled node keeps its status, drain state, active
      revision and revisions through every sequence of transactions. */
  lemma {:induction false} RunFreezesDisabled(cfg: PanelConfig, db: Db, ops: seq<PanelOp>, n: string)
    requires n in db.nodes && db.nodes[n].status.Disabled?
    requires forall i :: 0 <= i < |ops| ==> !Enables(ops[i], n)
    ensures Frozen(db, Run(cfg, db, ops), n)
  {
    if ops != [] {
      var before := Run(cfg, db, ops[..|ops| - 1]);
      RunFreezesDisabled(cfg, db, ops[..|ops| - 1], n);
      StepFreezesDisabled(cfg, before, ops[|ops| - 1], n);
      FrozenIsTransitive(db, before, Run(cfg, db, ops), n);
    }
  }
}
